/** The AES-128 code of `encryption.c`, working in place on byte arrays, proved equal to the cipher of FIPS 197. */
module Encryption {
  import opened GaloisField
  import opened SubstitutionTables
  import opened Fips197

  const KEY_SIZE := 16
  const EXPANDED_KEY_SIZE := 176

  function WordAt(a: array<bv8>, i: nat): Word
    requires i + 4 <= a.Length
    reads a
  {
    Word(a[i], a[i + 1], a[i + 2], a[i + 3])
  }

  function BlockAt(a: array<bv8>, i: nat): Block
    requires i + 16 <= a.Length
    reads a
  {
    Block(WordAt(a, i), WordAt(a, i + 4), WordAt(a, i + 8), WordAt(a, i + 12))
  }

  /** `Rcon`; entry 0 is never used. */
  function Rcon(i: nat): bv8
    requires 1 <= i <= 10
  {
    match i
    case 1 => 0x01
    case 2 => 0x02
    case 3 => 0x04
    case 4 => 0x08
    case 5 => 0x10
    case 6 => 0x20
    case 7 => 0x40
    case 8 => 0x80
    case 9 => 0x1b
    case 10 => 0x36
  }

  lemma {:induction false} RconIsRoundConstant(i: nat)
    requires 1 <= i <= 10
    ensures Rcon(i) == RoundConstant(i)
  {
    if i > 1 {
      RconIsRoundConstant(i - 1);
    }
  }

  /** The schedule of `key` fills the expanded key. */
  ghost predicate Expanded(expandedKey: array<bv8>, key: Block)
    requires expandedKey.Length == EXPANDED_KEY_SIZE
    reads expandedKey
  {
    forall r {:trigger RoundKey(key, r)} :: 0 <= r <= ROUNDS ==> BlockAt(expandedKey, 16 * r) == RoundKey(key, r)
  }

  method ExpandKey(expandedKey: array<bv8>, key: array<bv8>)
    requires expandedKey.Length == EXPANDED_KEY_SIZE && key.Length >= KEY_SIZE && key != expandedKey
    modifies expandedKey
    ensures Expanded(expandedKey, BlockAt(key, 0))
  {
    hide SBox, KeyWord;
    ghost var k := BlockAt(key, 0);
    for ii := 0 to 16
      invariant forall j :: 0 <= j < ii ==> expandedKey[j] == key[j]
    {
      expandedKey[ii] := key[ii];
    }
    FirstRoundKey(k);
    assert BlockAt(expandedKey, 0) == k;
    for ii := 1 to 11
      invariant forall r {:trigger RoundKey(k, r)} :: 0 <= r < ii ==> BlockAt(expandedKey, 16 * r) == RoundKey(k, r)
    {
      assert BlockAt(expandedKey, 16 * (ii - 1)) == RoundKey(k, ii - 1);
      ExpandRound(expandedKey, ii, k);
    }
  }

  lemma FirstRoundKey(key: Block)
    ensures RoundKey(key, 0) == key
  {
  }

  /** The body of the second loop of `expandKey`: round key `ii` from round key `ii - 1`. */
  method ExpandRound(expandedKey: array<bv8>, ii: nat, ghost key: Block)
    requires expandedKey.Length == EXPANDED_KEY_SIZE && 1 <= ii <= ROUNDS
    requires BlockAt(expandedKey, 16 * (ii - 1)) == RoundKey(key, ii - 1)
    modifies expandedKey
    ensures BlockAt(expandedKey, 16 * ii) == RoundKey(key, ii)
    ensures forall k :: 0 <= k < 16 * ii ==> expandedKey[k] == old(expandedKey[k])
  {
    hide SBox, KeyWord, XorWord, FirstWord, Rcon;
    RoundWords(expandedKey, ii - 1, key);
    ScheduleStep(key, ii);
    ExpandFirstWord(expandedKey, ii);
    ExpandOtherWords(expandedKey, 16 * ii);
    RoundFromWords(expandedKey, ii, key);
  }

  /** The other three words of a round key. */
  method ExpandOtherWords(expandedKey: array<bv8>, i: nat)
    requires 16 <= i && i + 16 <= expandedKey.Length
    modifies expandedKey
    ensures WordAt(expandedKey, i) == old(WordAt(expandedKey, i))
    ensures WordAt(expandedKey, i + 4) == XorWord(old(WordAt(expandedKey, i - 12)), WordAt(expandedKey, i))
    ensures WordAt(expandedKey, i + 8) == XorWord(old(WordAt(expandedKey, i - 8)), WordAt(expandedKey, i + 4))
    ensures WordAt(expandedKey, i + 12) == XorWord(old(WordAt(expandedKey, i - 4)), WordAt(expandedKey, i + 8))
    ensures forall k :: 0 <= k < i ==> expandedKey[k] == old(expandedKey[k])
  {
    hide XorWord;
    ExpandWord(expandedKey, i + 4);
    ExpandWord(expandedKey, i + 8);
    ExpandWord(expandedKey, i + 12);
  }

  lemma RoundWords(expandedKey: array<bv8>, r: nat, key: Block)
    requires expandedKey.Length == EXPANDED_KEY_SIZE && r <= ROUNDS && BlockAt(expandedKey, 16 * r) == RoundKey(key, r)
    ensures WordAt(expandedKey, 16 * r) == KeyWord(key, 4 * r) && WordAt(expandedKey, 16 * r + 4) == KeyWord(key, 4 * r + 1)
    ensures WordAt(expandedKey, 16 * r + 8) == KeyWord(key, 4 * r + 2) && WordAt(expandedKey, 16 * r + 12) == KeyWord(key, 4 * r + 3)
  {
    hide KeyWord, WordAt;
  }

  lemma RoundFromWords(expandedKey: array<bv8>, r: nat, key: Block)
    requires expandedKey.Length == EXPANDED_KEY_SIZE && r <= ROUNDS
    requires WordAt(expandedKey, 16 * r) == KeyWord(key, 4 * r) && WordAt(expandedKey, 16 * r + 4) == KeyWord(key, 4 * r + 1)
    requires WordAt(expandedKey, 16 * r + 8) == KeyWord(key, 4 * r + 2) && WordAt(expandedKey, 16 * r + 12) == KeyWord(key, 4 * r + 3)
    ensures BlockAt(expandedKey, 16 * r) == RoundKey(key, r)
  {
    hide KeyWord, WordAt;
  }

  lemma ScheduleStep(key: Block, ii: nat)
    requires 1 <= ii <= ROUNDS
    ensures KeyWord(key, 4 * ii) == FirstWord(KeyWord(key, 4 * ii - 4), KeyWord(key, 4 * ii - 1), Rcon(ii))
    ensures KeyWord(key, 4 * ii + 1) == XorWord(KeyWord(key, 4 * ii - 3), KeyWord(key, 4 * ii))
    ensures KeyWord(key, 4 * ii + 2) == XorWord(KeyWord(key, 4 * ii - 2), KeyWord(key, 4 * ii + 1))
    ensures KeyWord(key, 4 * ii + 3) == XorWord(KeyWord(key, 4 * ii - 1), KeyWord(key, 4 * ii + 2))
  {
    hide SBox, XorWord, SubWord, FirstWord, Rcon;
    FirstWordOfSchedule(KeyWord(key, 4 * ii - 4), KeyWord(key, 4 * ii - 1), Rcon(ii));
    RconIsRoundConstant(ii);
    assert (4 * ii) / 4 == ii && (4 * ii) % 4 == 0;
  }

  /** The first word of a round key as the source computes it. */
  function FirstWord(before: Word, last: Word, rcon: bv8): Word {
    Word(Add(Add(SBox(last.b1), before.b0), rcon), Add(SBox(last.b2), before.b1), Add(SBox(last.b3), before.b2), Add(SBox(last.b0), before.b3))
  }

  lemma FirstWordOfSchedule(before: Word, last: Word, rcon: bv8)
    ensures XorWord(before, XorWord(SubWord(RotWord(last)), Word(rcon, 0, 0, 0))) == FirstWord(before, last, rcon)
  {
    hide SBox, Add;
    XorReorder(before.b0, SBox(last.b1), rcon);
    XorReorder(before.b1, SBox(last.b2), 0);
    XorReorder(before.b2, SBox(last.b3), 0);
    XorReorder(before.b3, SBox(last.b0), 0);
    AddZero(Add(SBox(last.b2), before.b1));
    AddZero(Add(SBox(last.b3), before.b2));
    AddZero(Add(SBox(last.b0), before.b3));
  }

  lemma XorReorder(a: bv8, b: bv8, c: bv8)
    ensures Add(a, Add(b, c)) == Add(Add(b, a), c)
  {
    hide Add;
    AddAssociative(a, b, c);
    AddSymmetric(a, b);
  }

  method ExpandFirstWord(expandedKey: array<bv8>, ii: nat)
    requires expandedKey.Length == EXPANDED_KEY_SIZE && 1 <= ii <= ROUNDS
    modifies expandedKey
    ensures WordAt(expandedKey, 16 * ii)
            == FirstWord(old(WordAt(expandedKey, 16 * ii - 16)), old(WordAt(expandedKey, 16 * ii - 4)), Rcon(ii))
    ensures forall k :: 0 <= k < 16 * ii ==> expandedKey[k] == old(expandedKey[k])
  {
    hide SBox, Add, Rcon;
    var buf1 := expandedKey[ii * 16 - 4];
    expandedKey[ii * 16 + 0] := Add(Add(SBox(expandedKey[ii * 16 - 3]), expandedKey[(ii - 1) * 16 + 0]), Rcon(ii));
    expandedKey[ii * 16 + 1] := Add(SBox(expandedKey[ii * 16 - 2]), expandedKey[(ii - 1) * 16 + 1]);
    expandedKey[ii * 16 + 2] := Add(SBox(expandedKey[ii * 16 - 1]), expandedKey[(ii - 1) * 16 + 2]);
    expandedKey[ii * 16 + 3] := Add(SBox(buf1), expandedKey[(ii - 1) * 16 + 3]);
  }

  /** Four lines of `expandKey`: the word at `i` becomes the sum of the words 16 and 4 bytes before it. */
  method ExpandWord(expandedKey: array<bv8>, i: nat)
    requires 16 <= i && i + 4 <= expandedKey.Length
    modifies expandedKey
    ensures WordAt(expandedKey, i) == XorWord(old(WordAt(expandedKey, i - 16)), old(WordAt(expandedKey, i - 4)))
    ensures forall k :: 0 <= k < i ==> expandedKey[k] == old(expandedKey[k])
  {
    hide Add;
    expandedKey[i + 0] := Add(expandedKey[i - 16], expandedKey[i - 4]);
    expandedKey[i + 1] := Add(expandedKey[i - 15], expandedKey[i - 3]);
    expandedKey[i + 2] := Add(expandedKey[i - 14], expandedKey[i - 2]);
    expandedKey[i + 3] := Add(expandedKey[i - 13], expandedKey[i - 1]);
  }

  // ---- cipher ----

  /** Row r of the state, or of a round key, when `i` is r bytes behind its start. */
  function RowAt(a: array<bv8>, i: nat): Word
    requires i + 13 <= a.Length
    reads a
  {
    Word(a[i], a[i + 4], a[i + 8], a[i + 12])
  }

  function KeyedRow(row: Word, key: Word): Word {
    SubWord(XorWord(row, key))
  }

  function ShiftedRow0(w: Word): Word {
    w
  }

  function ShiftedRow1(w: Word): Word {
    Word(w.b1, w.b2, w.b3, w.b0)
  }

  function ShiftedRow2(w: Word): Word {
    Word(w.b2, w.b3, w.b0, w.b1)
  }

  function ShiftedRow3(w: Word): Word {
    Word(w.b3, w.b0, w.b1, w.b2)
  }

  method AddKeySubShiftRow0(state: array<bv8>, at: nat, expandedKey: array<bv8>, k: nat)
    requires at + 16 <= state.Length && k + 16 <= expandedKey.Length && state != expandedKey
    modifies state
    ensures RowAt(state, at + 0) == ShiftedRow0(KeyedRow(old(RowAt(state, at + 0)), RowAt(expandedKey, k + 0)))
    ensures forall i :: 0 <= i < state.Length && !(i == at + 0 || i == at + 4 || i == at + 8 || i == at + 12) ==> state[i] == old(state[i])
  {
    hide SBox, Add;
    state[at + 0] := SBox(Add(state[at + 0], expandedKey[k + 0]));
    state[at + 4] := SBox(Add(state[at + 4], expandedKey[k + 4]));
    state[at + 8] := SBox(Add(state[at + 8], expandedKey[k + 8]));
    state[at + 12] := SBox(Add(state[at + 12], expandedKey[k + 12]));
  }

  method AddKeySubShiftRow1(state: array<bv8>, at: nat, expandedKey: array<bv8>, k: nat)
    requires at + 16 <= state.Length && k + 16 <= expandedKey.Length && state != expandedKey
    modifies state
    ensures RowAt(state, at + 1) == ShiftedRow1(KeyedRow(old(RowAt(state, at + 1)), RowAt(expandedKey, k + 1)))
    ensures forall i :: 0 <= i < state.Length && !(i == at + 1 || i == at + 5 || i == at + 9 || i == at + 13) ==> state[i] == old(state[i])
  {
    hide SBox, Add;
    var buf1 := Add(state[at + 1], expandedKey[k + 1]);
    state[at + 1] := SBox(Add(state[at + 5], expandedKey[k + 5]));
    state[at + 5] := SBox(Add(state[at + 9], expandedKey[k + 9]));
    state[at + 9] := SBox(Add(state[at + 13], expandedKey[k + 13]));
    state[at + 13] := SBox(buf1);
  }

  method AddKeySubShiftRow2(state: array<bv8>, at: nat, expandedKey: array<bv8>, k: nat)
    requires at + 16 <= state.Length && k + 16 <= expandedKey.Length && state != expandedKey
    modifies state
    ensures RowAt(state, at + 2) == ShiftedRow2(KeyedRow(old(RowAt(state, at + 2)), RowAt(expandedKey, k + 2)))
    ensures forall i :: 0 <= i < state.Length && !(i == at + 2 || i == at + 6 || i == at + 10 || i == at + 14) ==> state[i] == old(state[i])
  {
    hide SBox, Add;
    var buf1 := Add(state[at + 2], expandedKey[k + 2]);
    var buf2 := Add(state[at + 6], expandedKey[k + 6]);
    state[at + 2] := SBox(Add(state[at + 10], expandedKey[k + 10]));
    state[at + 6] := SBox(Add(state[at + 14], expandedKey[k + 14]));
    state[at + 10] := SBox(buf1);
    state[at + 14] := SBox(buf2);
  }

  method AddKeySubShiftRow3(state: array<bv8>, at: nat, expandedKey: array<bv8>, k: nat)
    requires at + 16 <= state.Length && k + 16 <= expandedKey.Length && state != expandedKey
    modifies state
    ensures RowAt(state, at + 3) == ShiftedRow3(KeyedRow(old(RowAt(state, at + 3)), RowAt(expandedKey, k + 3)))
    ensures forall i :: 0 <= i < state.Length && !(i == at + 3 || i == at + 7 || i == at + 11 || i == at + 15) ==> state[i] == old(state[i])
  {
    hide SBox, Add;
    var buf1 := Add(state[at + 15], expandedKey[k + 15]);
    state[at + 15] := SBox(Add(state[at + 11], expandedKey[k + 11]));
    state[at + 11] := SBox(Add(state[at + 7], expandedKey[k + 7]));
    state[at + 7] := SBox(Add(state[at + 3], expandedKey[k + 3]));
    state[at + 3] := SBox(buf1);
  }

  /** "addroundkey, sbox and shiftrows": the fused steps of `aes_encr` on the 16 bytes from `at` on. */
  method AddKeySubShift(state: array<bv8>, at: nat, expandedKey: array<bv8>, k: nat)
    requires at + 16 <= state.Length && k + 16 <= expandedKey.Length && state != expandedKey
    modifies state
    ensures BlockAt(state, at) == ShiftRows(SubBytes(AddRoundKey(old(BlockAt(state, at)), BlockAt(expandedKey, k))))
    ensures forall i :: 0 <= i < state.Length && !(at <= i < at + 16) ==> state[i] == old(state[i])
  {
    hide SBox, Add;
    AddKeySubShiftRow0(state, at, expandedKey, k);
    AddKeySubShiftRow1(state, at, expandedKey, k);
    AddKeySubShiftRow2(state, at, expandedKey, k);
    AddKeySubShiftRow3(state, at, expandedKey, k);
  }

  /** "mixcolums" of one column. */
  method MixColumnInPlace(state: array<bv8>, c: nat)
    requires c + 4 <= state.Length
    modifies state
    ensures WordAt(state, c) == MixColumn(old(WordAt(state, c)))
    ensures forall i :: 0 <= i < state.Length && !(c <= i < c + 4) ==> state[i] == old(state[i])
  {
    hide Add, XTime, MixByte;
    ghost var s0, s1, s2, s3 := state[c], state[c + 1], state[c + 2], state[c + 3];
    var buf1 := Add(Add(Add(state[c], state[c + 1]), state[c + 2]), state[c + 3]);
    var buf2 := state[c];
    var buf3 := XTime(Add(state[c], state[c + 1]));
    state[c] := Add(Add(state[c], buf3), buf1);
    buf3 := XTime(Add(state[c + 1], state[c + 2]));
    state[c + 1] := Add(Add(state[c + 1], buf3), buf1);
    buf3 := XTime(Add(state[c + 2], state[c + 3]));
    state[c + 2] := Add(Add(state[c + 2], buf3), buf1);
    buf3 := XTime(Add(state[c + 3], buf2));
    state[c + 3] := Add(Add(state[c + 3], buf3), buf1);
    MixedColumn(s0, s1, s2, s3);
  }

  /** The source's common term buf1, the sum of the column, in the order each row needs it. */
  lemma MixedColumn(s0: bv8, s1: bv8, s2: bv8, s3: bv8)
    ensures var buf1 := Add(Add(Add(s0, s1), s2), s3);
            MixColumn(Word(s0, s1, s2, s3))
            == Word(Add(Add(s0, XTime(Add(s0, s1))), buf1), Add(Add(s1, XTime(Add(s1, s2))), buf1),
                    Add(Add(s2, XTime(Add(s2, s3))), buf1), Add(Add(s3, XTime(Add(s3, s0))), buf1))
  {
    hide Add, XTime, MixByte;
    MixByteOneDoubling(s0, s1, s2, s3);
    MixByteOneDoubling(s1, s2, s3, s0);
    MixByteOneDoubling(s2, s3, s0, s1);
    MixByteOneDoubling(s3, s0, s1, s2);
    SumRotates(s0, s1, s2, s3);
    SumRotates(s1, s2, s3, s0);
    SumRotates(s2, s3, s0, s1);
  }

  lemma SumRotates(a: bv8, b: bv8, c: bv8, d: bv8)
    ensures Add(Add(Add(a, b), c), d) == Add(Add(Add(b, c), d), a)
  {
    hide Add;
    AddAssociative(a, b, c);
    AddAssociative(a, Add(b, c), d);
    AddSymmetric(a, Add(Add(b, c), d));
  }

  method MixColumnsInPlace(state: array<bv8>, at: nat)
    requires at + 16 <= state.Length
    modifies state
    ensures BlockAt(state, at) == MixColumns(old(BlockAt(state, at)))
    ensures forall i :: 0 <= i < state.Length && !(at <= i < at + 16) ==> state[i] == old(state[i])
  {
    hide MixColumn;
    MixColumnInPlace(state, at);
    MixColumnInPlace(state, at + 4);
    MixColumnInPlace(state, at + 8);
    MixColumnInPlace(state, at + 12);
  }

  /** "addroundkey" of one column. */
  method AddKeyWord(state: array<bv8>, c: nat, expandedKey: array<bv8>, k: nat)
    requires c + 4 <= state.Length && k + 4 <= expandedKey.Length && state != expandedKey
    modifies state
    ensures WordAt(state, c) == XorWord(old(WordAt(state, c)), WordAt(expandedKey, k))
    ensures forall i :: 0 <= i < state.Length && !(c <= i < c + 4) ==> state[i] == old(state[i])
  {
    hide Add;
    state[c] := Add(state[c], expandedKey[k]);
    state[c + 1] := Add(state[c + 1], expandedKey[k + 1]);
    state[c + 2] := Add(state[c + 2], expandedKey[k + 2]);
    state[c + 3] := Add(state[c + 3], expandedKey[k + 3]);
  }

  method AddKeyInPlace(state: array<bv8>, at: nat, expandedKey: array<bv8>, k: nat)
    requires at + 16 <= state.Length && k + 16 <= expandedKey.Length && state != expandedKey
    modifies state
    ensures BlockAt(state, at) == AddRoundKey(old(BlockAt(state, at)), BlockAt(expandedKey, k))
    ensures forall i :: 0 <= i < state.Length && !(at <= i < at + 16) ==> state[i] == old(state[i])
  {
    hide XorWord;
    AddKeyWord(state, at, expandedKey, k);
    AddKeyWord(state, at + 4, expandedKey, k + 4);
    AddKeyWord(state, at + 8, expandedKey, k + 8);
    AddKeyWord(state, at + 12, expandedKey, k + 12);
  }

  /** `aes_encr`: the block at `at` becomes its image under the FIPS 197 cipher. */
  method AesEncr(state: array<bv8>, at: nat, expandedKey: array<bv8>, ghost key: Block)
    requires at + 16 <= state.Length && state != expandedKey
    requires expandedKey.Length == EXPANDED_KEY_SIZE && Expanded(expandedKey, key)
    modifies state
    ensures BlockAt(state, at) == Cipher(old(BlockAt(state, at)), key)
    ensures forall i :: 0 <= i < state.Length && !(at <= i < at + 16) ==> state[i] == old(state[i])
  {
    hide BlockAt, AddRoundKey, SubBytes, ShiftRows, MixColumns, RoundKey;
    ghost var input := BlockAt(state, at);
    for round := 0 to 9
      invariant AddRoundKey(BlockAt(state, at), RoundKey(key, round)) == CipherRounds(input, key, round)
      invariant forall i :: 0 <= i < state.Length && !(at <= i < at + 16) ==> state[i] == old(state[i])
    {
      AddKeySubShift(state, at, expandedKey, round * 16);
      MixColumnsInPlace(state, at);
    }
    AddKeySubShift(state, at, expandedKey, 9 * 16);
    AddKeyInPlace(state, at, expandedKey, 160);
  }

  // ---- inverse cipher ----

  function UnkeyedRow(row: Word, key: Word): Word {
    XorWord(InvSubWord(row), key)
  }

  method InvShiftSubAddKeyRow0(state: array<bv8>, at: nat, expandedKey: array<bv8>, k: nat)
    requires at + 16 <= state.Length && k + 16 <= expandedKey.Length && state != expandedKey
    modifies state
    ensures RowAt(state, at + 0) == UnkeyedRow(ShiftedRow0(old(RowAt(state, at + 0))), RowAt(expandedKey, k + 0))
    ensures forall i :: 0 <= i < state.Length && !(i == at + 0 || i == at + 4 || i == at + 8 || i == at + 12) ==> state[i] == old(state[i])
  {
    hide InvSBox, Add;
    state[at + 0] := Add(InvSBox(state[at + 0]), expandedKey[k + 0]);
    state[at + 4] := Add(InvSBox(state[at + 4]), expandedKey[k + 4]);
    state[at + 8] := Add(InvSBox(state[at + 8]), expandedKey[k + 8]);
    state[at + 12] := Add(InvSBox(state[at + 12]), expandedKey[k + 12]);
  }

  method InvShiftSubAddKeyRow1(state: array<bv8>, at: nat, expandedKey: array<bv8>, k: nat)
    requires at + 16 <= state.Length && k + 16 <= expandedKey.Length && state != expandedKey
    modifies state
    ensures RowAt(state, at + 1) == UnkeyedRow(ShiftedRow3(old(RowAt(state, at + 1))), RowAt(expandedKey, k + 1))
    ensures forall i :: 0 <= i < state.Length && !(i == at + 1 || i == at + 5 || i == at + 9 || i == at + 13) ==> state[i] == old(state[i])
  {
    hide InvSBox, Add;
    var buf1 := Add(InvSBox(state[at + 13]), expandedKey[k + 1]);
    state[at + 13] := Add(InvSBox(state[at + 9]), expandedKey[k + 13]);
    state[at + 9] := Add(InvSBox(state[at + 5]), expandedKey[k + 9]);
    state[at + 5] := Add(InvSBox(state[at + 1]), expandedKey[k + 5]);
    state[at + 1] := buf1;
  }

  method InvShiftSubAddKeyRow2(state: array<bv8>, at: nat, expandedKey: array<bv8>, k: nat)
    requires at + 16 <= state.Length && k + 16 <= expandedKey.Length && state != expandedKey
    modifies state
    ensures RowAt(state, at + 2) == UnkeyedRow(ShiftedRow2(old(RowAt(state, at + 2))), RowAt(expandedKey, k + 2))
    ensures forall i :: 0 <= i < state.Length && !(i == at + 2 || i == at + 6 || i == at + 10 || i == at + 14) ==> state[i] == old(state[i])
  {
    hide InvSBox, Add;
    var buf1 := Add(InvSBox(state[at + 2]), expandedKey[k + 10]);
    var buf2 := Add(InvSBox(state[at + 6]), expandedKey[k + 14]);
    state[at + 2] := Add(InvSBox(state[at + 10]), expandedKey[k + 2]);
    state[at + 6] := Add(InvSBox(state[at + 14]), expandedKey[k + 6]);
    state[at + 10] := buf1;
    state[at + 14] := buf2;
  }

  method InvShiftSubAddKeyRow3(state: array<bv8>, at: nat, expandedKey: array<bv8>, k: nat)
    requires at + 16 <= state.Length && k + 16 <= expandedKey.Length && state != expandedKey
    modifies state
    ensures RowAt(state, at + 3) == UnkeyedRow(ShiftedRow1(old(RowAt(state, at + 3))), RowAt(expandedKey, k + 3))
    ensures forall i :: 0 <= i < state.Length && !(i == at + 3 || i == at + 7 || i == at + 11 || i == at + 15) ==> state[i] == old(state[i])
  {
    hide InvSBox, Add;
    var buf1 := Add(InvSBox(state[at + 3]), expandedKey[k + 15]);
    state[at + 3] := Add(InvSBox(state[at + 7]), expandedKey[k + 3]);
    state[at + 7] := Add(InvSBox(state[at + 11]), expandedKey[k + 7]);
    state[at + 11] := Add(InvSBox(state[at + 15]), expandedKey[k + 11]);
    state[at + 15] := buf1;
  }

  /** "addroundkey, rsbox and shiftrows": the fused steps of `aes_decr`. */
  method InvShiftSubAddKey(state: array<bv8>, at: nat, expandedKey: array<bv8>, k: nat)
    requires at + 16 <= state.Length && k + 16 <= expandedKey.Length && state != expandedKey
    modifies state
    ensures BlockAt(state, at) == AddRoundKey(InvSubBytes(InvShiftRows(old(BlockAt(state, at)))), BlockAt(expandedKey, k))
    ensures forall i :: 0 <= i < state.Length && !(at <= i < at + 16) ==> state[i] == old(state[i])
  {
    hide InvSBox, Add;
    InvShiftSubAddKeyRow0(state, at, expandedKey, k);
    InvShiftSubAddKeyRow1(state, at, expandedKey, k);
    InvShiftSubAddKeyRow2(state, at, expandedKey, k);
    InvShiftSubAddKeyRow3(state, at, expandedKey, k);
  }

  /** Barreto's pre-step on a column. */
  function BarretoWord(w: Word): Word {
    var u, v := XTime(XTime(Add(w.b0, w.b2))), XTime(XTime(Add(w.b1, w.b3)));
    Word(Add(w.b0, u), Add(w.b1, v), Add(w.b2, u), Add(w.b3, v))
  }

  lemma MixOfBarreto(w: Word)
    ensures MixColumn(BarretoWord(w)) == InvMixColumn(w)
  {
    hide Add, XTime, MixByte, UnmixByte;
    var u, v := XTime(XTime(Add(w.b0, w.b2))), XTime(XTime(Add(w.b1, w.b3)));
    AddSymmetric(w.b0, w.b2);
    AddSymmetric(w.b1, w.b3);
    Barreto(w.b0, w.b1, w.b2, w.b3, u, v);
    Barreto(w.b1, w.b2, w.b3, w.b0, v, u);
    Barreto(w.b2, w.b3, w.b0, w.b1, u, v);
    Barreto(w.b3, w.b0, w.b1, w.b2, v, u);
  }

  method BarretoInPlace(state: array<bv8>, c: nat)
    requires c + 4 <= state.Length
    modifies state
    ensures WordAt(state, c) == BarretoWord(old(WordAt(state, c)))
    ensures forall i :: 0 <= i < state.Length && !(c <= i < c + 4) ==> state[i] == old(state[i])
  {
    hide Add, XTime;
    var buf1 := XTime(XTime(Add(state[c], state[c + 2])));
    var buf2 := XTime(XTime(Add(state[c + 1], state[c + 3])));
    state[c] := Add(state[c], buf1);
    state[c + 1] := Add(state[c + 1], buf2);
    state[c + 2] := Add(state[c + 2], buf1);
    state[c + 3] := Add(state[c + 3], buf2);
  }

  /** "barreto" and then the forward "mixcolums": together InvMixColumns(). */
  method InvMixColumnsInPlace(state: array<bv8>, at: nat)
    requires at + 16 <= state.Length
    modifies state
    ensures BlockAt(state, at) == InvMixColumns(old(BlockAt(state, at)))
    ensures forall i :: 0 <= i < state.Length && !(at <= i < at + 16) ==> state[i] == old(state[i])
  {
    hide MixColumn, InvMixColumn, BarretoWord;
    ghost var input := BlockAt(state, at);
    BarretoInPlace(state, at);
    BarretoInPlace(state, at + 4);
    BarretoInPlace(state, at + 8);
    BarretoInPlace(state, at + 12);
    MixColumnsInPlace(state, at);
    MixOfBarreto(input.w0);
    MixOfBarreto(input.w1);
    MixOfBarreto(input.w2);
    MixOfBarreto(input.w3);
  }

  /** `aes_decr`: the block at `at` becomes its image under the FIPS 197 inverse cipher. */
  method AesDecr(state: array<bv8>, at: nat, expandedKey: array<bv8>, ghost key: Block)
    requires at + 16 <= state.Length && state != expandedKey
    requires expandedKey.Length == EXPANDED_KEY_SIZE && Expanded(expandedKey, key)
    modifies state
    ensures BlockAt(state, at) == InvCipher(old(BlockAt(state, at)), key)
    ensures forall i :: 0 <= i < state.Length && !(at <= i < at + 16) ==> state[i] == old(state[i])
  {
    hide BlockAt, AddRoundKey, InvSubBytes, InvShiftRows, InvMixColumns, RoundKey;
    ghost var input := BlockAt(state, at);
    AddKeyInPlace(state, at, expandedKey, 160);
    var round := 9;
    InvShiftSubAddKey(state, at, expandedKey, round * 16);
    round := 8;
    while round >= 0
      invariant -1 <= round <= 8
      invariant BlockAt(state, at)
                == AddRoundKey(InvSubBytes(InvShiftRows(InvCipherRounds(input, key, 8 - round))), RoundKey(key, round + 1))
      invariant forall i :: 0 <= i < state.Length && !(at <= i < at + 16) ==> state[i] == old(state[i])
    {
      InvMixColumnsInPlace(state, at);
      InvShiftSubAddKey(state, at, expandedKey, round * 16);
      round := round - 1;
    }
  }
}
