/** `encrypt` and `decrypt` of `encryption.c`: AES-128 in cipher block chaining mode (section 6.2 of NIST SP 800-38A)
    with a zero initialization vector and zero padding, in place on the message buffer. */
module BlockChaining {
  import opened Basics
  import opened GaloisField
  import opened Fips197
  import opened Encryption

  /** The largest size whose padded size still fits 16 bits. */
  const MAX_SIZE := 65520

  const ZERO_BLOCK := Block(ZERO_WORD, ZERO_WORD, ZERO_WORD, ZERO_WORD)
  const ZERO_WORD := Word(0, 0, 0, 0)

  // ---- specification ----

  function Padded(size: nat): nat {
    if size % 16 == 0 then size else size - size % 16 + 16
  }

  /** The padded size as the code computes it, on 16 bits. */
  function PaddedOnWord(size: Word16): Word16 {
    if size % 16 == 0 then size else (size as nat - size % 16 + 16) % 0x1_0000
  }

  /** It is the padded size if and only if that fits; beyond, it is 0. */
  lemma PaddingFits(size: Word16)
    ensures PaddedOnWord(size) == Padded(size) <==> size <= MAX_SIZE
    ensures size > MAX_SIZE ==> PaddedOnWord(size) == 0 && Padded(size) == 0x1_0000
  {
  }

  /** The message followed by zeros up to a whole number of blocks. */
  function Pad(message: seq<bv8>): (padded: seq<bv8>)
    ensures |padded| == Padded(|message|) && |padded| % 16 == 0
  {
    message + seq(Padded(|message|) - |message|, _ => 0)
  }

  function BlockOf(s: seq<bv8>, i: nat): Block
    requires i + 16 <= |s|
  {
    Block(Word(s[i], s[i + 1], s[i + 2], s[i + 3]), Word(s[i + 4], s[i + 5], s[i + 6], s[i + 7]),
          Word(s[i + 8], s[i + 9], s[i + 10], s[i + 11]), Word(s[i + 12], s[i + 13], s[i + 14], s[i + 15]))
  }

  function Blocks(s: seq<bv8>): seq<Block>
    requires |s| % 16 == 0
  {
    seq(|s| / 16, j requires 0 <= j < |s| / 16 => BlockOf(s, 16 * j))
  }

  /** Block j of the cipher text of p. */
  function CbcCipher(p: seq<Block>, key: Block, j: nat): Block
    requires j < |p|
  {
    Cipher(XorBlock(p[j], if j == 0 then ZERO_BLOCK else CbcCipher(p, key, j - 1)), key)
  }

  function CbcEncrypt(p: seq<Block>, key: Block): seq<Block> {
    seq(|p|, j requires 0 <= j < |p| => CbcCipher(p, key, j))
  }

  /** Block j of the plain text of c. */
  function CbcPlain(c: seq<Block>, key: Block, j: nat): Block
    requires j < |c|
  {
    XorBlock(InvCipher(c[j], key), if j == 0 then ZERO_BLOCK else c[j - 1])
  }

  function CbcDecrypt(c: seq<Block>, key: Block): seq<Block> {
    seq(|c|, j requires 0 <= j < |c| => CbcPlain(c, key, j))
  }

  /** Decryption inverts encryption for every key and every number of blocks. */
  lemma DecryptOfEncrypt(p: seq<Block>, key: Block)
    ensures CbcDecrypt(CbcEncrypt(p, key), key) == p
  {
    hide Cipher, InvCipher, XorBlock;
    var c := CbcEncrypt(p, key);
    forall j | 0 <= j < |p|
      ensures CbcPlain(c, key, j) == p[j]
    {
      var before := if j == 0 then ZERO_BLOCK else c[j - 1];
      assert before == if j == 0 then ZERO_BLOCK else CbcCipher(p, key, j - 1);
      InvCipherOfCipher(XorBlock(p[j], before), key);
      XorTwice(p[j], before);
    }
  }

  lemma BlocksInjective(s: seq<bv8>, t: seq<bv8>)
    requires |s| == |t| && |s| % 16 == 0 && Blocks(s) == Blocks(t)
    ensures s == t
  {
    forall i | 0 <= i < |s|
      ensures s[i] == t[i]
    {
      var j := i / 16;
      assert Blocks(s)[j] == Blocks(t)[j];
      assert BlockOf(s, 16 * j) == BlockOf(t, 16 * j);
    }
  }

  // ---- the code ----

  /** `encrypt`: pads the first `size` bytes and encrypts as many of them as the padded size on 16 bits tells, which it
      returns: all of them up to `MAX_SIZE` and none beyond. */
  method Encrypt(buff: array<bv8>, size: Word16, key: array<bv8>, expandedKey: array<bv8>) returns (newSize: Word16)
    requires Padded(size) <= buff.Length && key.Length >= KEY_SIZE
    requires expandedKey.Length == EXPANDED_KEY_SIZE && expandedKey != buff && expandedKey != key && key != buff
    modifies buff, expandedKey
    ensures newSize == if size <= MAX_SIZE then Padded(size) else 0
    ensures size <= MAX_SIZE ==> Blocks(buff[..newSize]) == CbcEncrypt(Blocks(Pad(old(buff[..size]))), BlockAt(key, 0))
    ensures size > MAX_SIZE ==> buff[..Padded(size)] == Pad(old(buff[..size]))
    ensures buff[Padded(size)..] == old(buff[Padded(size)..])
  {
    PaddingFits(size);
    ghost var padded := Pad(buff[..size]);
    newSize := size;
    if size % 16 != 0 {
      newSize := (size as nat - size % 16 + 16) % 0x1_0000;
      var count := (newSize as nat + 0x1_0000 - size) % 0x1_0000;
      Zero(buff, size, count);
    }
    assert buff[..Padded(size)] == padded;
    ExpandKey(expandedKey, key);
    ghost var before := buff[..];
    EncryptBlocks(buff, newSize, expandedKey, BlockAt(key, 0));
    assert newSize == 0 ==> buff[..] == before;
  }

  /** `memset` to 0. */
  method Zero(buff: array<bv8>, start: nat, count: nat)
    requires start + count <= buff.Length
    modifies buff
    ensures buff[..] == old(buff[..start]) + seq(count, _ => 0) + old(buff[start + count..])
  {
    for i := start to start + count
      invariant forall k :: 0 <= k < buff.Length ==> buff[k] == if start <= k < i then 0 else old(buff[k])
    {
      buff[i] := 0;
    }
  }

  /** The block loop of `encrypt`. */
  method EncryptBlocks(buff: array<bv8>, size: nat, expandedKey: array<bv8>, ghost key: Block)
    requires size % 16 == 0 && size <= buff.Length
    requires expandedKey.Length == EXPANDED_KEY_SIZE && expandedKey != buff && Expanded(expandedKey, key)
    modifies buff
    ensures Blocks(buff[..size]) == CbcEncrypt(Blocks(old(buff[..size])), key)
    ensures buff[size..] == old(buff[size..])
  {
    hide Expanded, XorBlock, BlockOf, CbcCipher, Cipher;
    ghost var input := buff[..];
    ghost var p := Blocks(input[..size]);
    var i := 0;
    while i < size
      invariant i % 16 == 0 && i <= size
      invariant forall j :: 0 <= j < i / 16 ==> BlockOf(buff[..], 16 * j) == CbcCipher(p, key, j)
      invariant forall k :: i <= k < buff.Length ==> buff[k] == input[k]
    {
      ghost var n := i / 16;
      ghost var before := buff[..];
      BlocksAt(input, size, n);
      SameBlock(input, before, i);
      EncryptBlockAt(buff, i, expandedKey, key);
      CbcCipherStep(p, key, n);
      forall j | 0 <= j < n
        ensures BlockOf(buff[..], 16 * j) == CbcCipher(p, key, j)
      {
        SameBlock(before, buff[..], 16 * j);
      }
      i := i + 16;
    }
    forall j | 0 <= j < size / 16
      ensures Blocks(buff[..size])[j] == CbcCipher(p, key, j)
    {
      BlocksAt(buff[..], size, j);
    }
    assert Blocks(buff[..size]) == CbcEncrypt(p, key);
  }

  lemma CbcCipherStep(p: seq<Block>, key: Block, j: nat)
    requires j < |p|
    ensures CbcCipher(p, key, j) == Cipher(XorBlock(p[j], if j == 0 then ZERO_BLOCK else CbcCipher(p, key, j - 1)), key)
  {
  }

  /** One iteration of the block loop of `encrypt`. */
  method EncryptBlockAt(buff: array<bv8>, i: nat, expandedKey: array<bv8>, ghost key: Block)
    requires i + 16 <= buff.Length && (i > 0 ==> i >= 16)
    requires expandedKey.Length == EXPANDED_KEY_SIZE && expandedKey != buff && Expanded(expandedKey, key)
    modifies buff
    ensures BlockOf(buff[..], i)
            == Cipher(XorBlock(BlockOf(old(buff[..]), i), if i == 0 then ZERO_BLOCK else BlockOf(old(buff[..]), i - 16)), key)
    ensures forall k :: 0 <= k < buff.Length && !(i <= k < i + 16) ==> buff[k] == old(buff[k])
  {
    hide Expanded, XorBlock, Cipher;
    if i > 0 {
      XorPrevious(buff, i);
    } else {
      XorZero(BlockAt(buff, i));
    }
    AesEncr(buff, i, expandedKey, key);
  }

  lemma XorZero(s: Block)
    ensures XorBlock(s, ZERO_BLOCK) == s
  {
    hide Add;
    XorZeroWord(s.w0);
    XorZeroWord(s.w1);
    XorZeroWord(s.w2);
    XorZeroWord(s.w3);
  }

  lemma XorZeroWord(w: Word)
    ensures XorWord(w, ZERO_WORD) == w
  {
    hide Add;
    AddZero(w.b0);
    AddZero(w.b1);
    AddZero(w.b2);
    AddZero(w.b3);
  }

  /** Block n of the first `size` bytes. */
  lemma BlocksAt(s: seq<bv8>, size: nat, n: nat)
    requires size <= |s| && size % 16 == 0 && 16 * n < size
    ensures Blocks(s[..size])[n] == BlockOf(s, 16 * n)
  {
  }

  lemma SameBlock(s: seq<bv8>, t: seq<bv8>, i: nat)
    requires i + 16 <= |s| == |t|
    requires forall k :: i <= k < i + 16 ==> s[k] == t[k]
    ensures BlockOf(s, i) == BlockOf(t, i)
  {
  }

  /** The chaining step of `encrypt`. */
  method XorPrevious(buff: array<bv8>, i: nat)
    requires 16 <= i && i + 16 <= buff.Length
    modifies buff
    ensures BlockAt(buff, i) == XorBlock(old(BlockAt(buff, i)), BlockAt(buff, i - 16))
    ensures forall k :: 0 <= k < buff.Length && !(i <= k < i + 16) ==> buff[k] == old(buff[k])
  {
    hide Add;
    for j := 0 to 16
      invariant forall k :: i <= k < i + j ==> buff[k] == Add(old(buff[k]), old(buff[k - 16]))
      invariant forall k :: 0 <= k < buff.Length && !(i <= k < i + j) ==> buff[k] == old(buff[k])
    {
      buff[i + j] := Add(buff[i + j], buff[i + j - 16]);
    }
  }

  /** The block count of the loop `for (i = 0; i < message_len - 1; i += 16)` of `decrypt`. */
  function DecryptedBlocks(messageLen: nat): nat
    requires messageLen >= 1
  {
    (messageLen - 1 + 15) / 16
  }

  /** The 16-bit counter of the loop of `decrypt` after n rounds. */
  function Counter(n: nat): Word16 {
    16 * n % 0x1_0000
  }

  /** What it is compared with: the length less one, on 16 bits. */
  function CounterEnd(messageLen: Word16): Word16 {
    (messageLen as nat + 0xFFFF) % 0x1_0000
  }

  /** That loop ends if and only if the length is at least 1 and at most 65521. */
  lemma DecryptEndsExactly(messageLen: Word16)
    ensures (exists n :: Counter(n) >= CounterEnd(messageLen)) <==> 1 <= messageLen <= MAX_SIZE + 1
  {
    assert Counter(0xFFF) == MAX_SIZE;
    forall n
      ensures Counter(n) <= MAX_SIZE
    {
      assert 16 * n % 0x1_0000 == 16 * (n % 0x1000);
    }
  }

  /** `decrypt`: every block that starts before the last byte of the message, for the lengths on which its loop ends. */
  method Decrypt(message: array<bv8>, messageLen: nat, key: array<bv8>, expandedKey: array<bv8>)
    requires 1 <= messageLen <= MAX_SIZE + 1 && 16 * DecryptedBlocks(messageLen) <= message.Length && key.Length >= KEY_SIZE
    requires expandedKey.Length == EXPANDED_KEY_SIZE && expandedKey != message && expandedKey != key && key != message
    modifies message, expandedKey
    ensures var n := 16 * DecryptedBlocks(messageLen);
            && Blocks(message[..n]) == CbcDecrypt(Blocks(old(message[..n])), BlockAt(key, 0))
            && message[n..] == old(message[n..])
  {
    hide Expanded, XorBlock, BlockOf, InvCipher, RoundKey;
    ghost var k := BlockAt(key, 0);
    ghost var n := DecryptedBlocks(messageLen);
    ghost var input := message[..];
    ghost var c := Blocks(input[..16 * n]);
    ExpandKey(expandedKey, key);
    var tmp2 := new bv8[16](_ => 0);
    assert BlockOf(tmp2[..], 0) == ZERO_BLOCK by { ZeroBlock(tmp2[..]); }
    var i := 0;
    while i < messageLen - 1
      invariant i % 16 == 0 && i <= 16 * n
      invariant Expanded(expandedKey, k)
      invariant BlockOf(tmp2[..], 0) == if i == 0 then ZERO_BLOCK else BlockOf(input, i - 16)
      invariant forall j :: 0 <= j < i / 16 ==> BlockOf(message[..], 16 * j) == CbcPlain(c, k, j)
      invariant forall m :: i <= m < message.Length ==> message[m] == input[m]
    {
      ghost var b := i / 16;
      ghost var before := message[..];
      BlocksAt(input, 16 * n, b);
      if b > 0 {
        BlocksAt(input, 16 * n, b - 1);
      }
      SameBlock(input, before, i);
      DecryptBlockAt(message, i, tmp2, expandedKey, k);
      forall j | 0 <= j < b
        ensures BlockOf(message[..], 16 * j) == CbcPlain(c, k, j)
      {
        SameBlock(before, message[..], 16 * j);
      }
      i := i + 16;
    }
    forall j | 0 <= j < n
      ensures Blocks(message[..16 * n])[j] == CbcPlain(c, k, j)
    {
      BlocksAt(message[..], 16 * n, j);
    }
    assert Blocks(message[..16 * n]) == CbcDecrypt(c, k);
  }

  lemma ZeroBlock(s: seq<bv8>)
    requires |s| == 16 && forall k :: 0 <= k < 16 ==> s[k] == 0
    ensures BlockOf(s, 0) == ZERO_BLOCK
  {
  }

  /** One iteration of `decrypt`: `tmp2` holds the previous cipher block and receives this one. */
  method DecryptBlockAt(message: array<bv8>, i: nat, tmp2: array<bv8>, expandedKey: array<bv8>, ghost key: Block)
    requires i + 16 <= message.Length && tmp2.Length == 16 && tmp2 != message && tmp2 != expandedKey
    requires expandedKey.Length == EXPANDED_KEY_SIZE && expandedKey != message && Expanded(expandedKey, key)
    modifies message, tmp2
    ensures BlockOf(message[..], i) == XorBlock(InvCipher(BlockOf(old(message[..]), i), key), BlockOf(old(tmp2[..]), 0))
    ensures BlockOf(tmp2[..], 0) == BlockOf(old(message[..]), i)
    ensures forall k :: 0 <= k < message.Length && !(i <= k < i + 16) ==> message[k] == old(message[k])
  {
    hide Expanded, XorBlock, InvCipher;
    var tmp1 := new bv8[16];
    CopyBlock(message, i, tmp1);
    AesDecr(message, i, expandedKey, key);
    XorWith(message, i, tmp2);
    CopyBlock(tmp1, 0, tmp2);
  }

  /** `memcpy` of 16 bytes. */
  method CopyBlock(source: array<bv8>, i: nat, destination: array<bv8>)
    requires i + 16 <= source.Length && destination.Length == 16 && destination != source
    modifies destination
    ensures BlockAt(destination, 0) == BlockAt(source, i)
  {
    for j := 0 to 16
      invariant forall k :: 0 <= k < j ==> destination[k] == source[i + k]
    {
      destination[j] := source[i + j];
    }
  }

  method XorWith(message: array<bv8>, i: nat, tmp2: array<bv8>)
    requires i + 16 <= message.Length && tmp2.Length == 16 && tmp2 != message
    modifies message
    ensures BlockAt(message, i) == XorBlock(old(BlockAt(message, i)), BlockAt(tmp2, 0))
    ensures forall k :: 0 <= k < message.Length && !(i <= k < i + 16) ==> message[k] == old(message[k])
  {
    hide Add;
    for j := 0 to 16
      invariant forall k :: i <= k < i + j ==> message[k] == Add(old(message[k]), tmp2[k - i])
      invariant forall k :: 0 <= k < message.Length && !(i <= k < i + j) ==> message[k] == old(message[k])
    {
      message[i + j] := Add(message[i + j], tmp2[j]);
    }
  }

  /** What `encrypt` and `decrypt` are for: decrypting in place the result of encrypting, with the returned size, gives
      back the message and its zero padding and touches nothing behind it. */
  method DecryptRestoresMessage(buff: array<bv8>, size: nat, key: array<bv8>, expandedKey: array<bv8>)
    requires 1 <= size <= MAX_SIZE && Padded(size) <= buff.Length && key.Length >= KEY_SIZE
    requires expandedKey.Length == EXPANDED_KEY_SIZE && expandedKey != buff && expandedKey != key && key != buff
    modifies buff, expandedKey
    ensures buff[..Padded(size)] == Pad(old(buff[..size]))
    ensures buff[Padded(size)..] == old(buff[Padded(size)..])
  {
    hide Blocks, BlockOf, BlockAt, Pad, Padded, DecryptedBlocks, CbcEncrypt, CbcDecrypt;
    PaddedBlocks(size);
    ghost var padded := Pad(buff[..size]);
    var newSize := Encrypt(buff, size, key, expandedKey);
    Decrypt(buff, newSize, key, expandedKey);
    DecryptOfEncrypt(Blocks(padded), BlockAt(key, 0));
    BlocksInjective(buff[..newSize], padded);
  }

  lemma PaddedBlocks(size: nat)
    requires 1 <= size <= MAX_SIZE
    ensures size <= Padded(size) <= MAX_SIZE && Padded(size) % 16 == 0 && 16 * DecryptedBlocks(Padded(size)) == Padded(size)
  {
  }
}
