/** The substitution tables of the source, one 16-byte row a literal, and the defining properties of the S-box
    (sections 5.1.1 and 5.3.2 of FIPS 197). */
module SubstitutionTables {
  import opened GaloisField

  /** Byte x % 16 of a table row. */
  function TableEntry(row: bv128, x: bv8): bv8 {
    ((row >> (120 - ((x & 0x0f) as bv128 << 3))) & 0xff) as bv8
  }

  /** `sbox`, substitution values for the byte xy (Figure 7 of FIPS 197). */
  function SBox(x: bv8): bv8 {
    TableEntry(
      if x < 0x10 then 0x637c777bf26b6fc53001672bfed7ab76
      else if x < 0x20 then 0xca82c97dfa5947f0add4a2af9ca472c0
      else if x < 0x30 then 0xb7fd9326363ff7cc34a5e5f171d83115
      else if x < 0x40 then 0x04c723c31896059a071280e2eb27b275
      else if x < 0x50 then 0x09832c1a1b6e5aa0523bd6b329e32f84
      else if x < 0x60 then 0x53d100ed20fcb15b6acbbe394a4c58cf
      else if x < 0x70 then 0xd0efaafb434d338545f9027f503c9fa8
      else if x < 0x80 then 0x51a3408f929d38f5bcb6da2110fff3d2
      else if x < 0x90 then 0xcd0c13ec5f974417c4a77e3d645d1973
      else if x < 0xa0 then 0x60814fdc222a908846eeb814de5e0bdb
      else if x < 0xb0 then 0xe0323a0a4906245cc2d3ac629195e479
      else if x < 0xc0 then 0xe7c8376d8dd54ea96c56f4ea657aae08
      else if x < 0xd0 then 0xba78252e1ca6b4c6e8dd741f4bbd8b8a
      else if x < 0xe0 then 0x703eb5664803f60e613557b986c11d9e
      else if x < 0xf0 then 0xe1f8981169d98e949b1e87e9ce5528df
      else 0x8ca1890dbfe6426841992d0fb054bb16,
      x)
  }

  /** `rsbox` (Figure 14 of FIPS 197). */
  function InvSBox(x: bv8): bv8 {
    TableEntry(
      if x < 0x10 then 0x52096ad53036a538bf40a39e81f3d7fb
      else if x < 0x20 then 0x7ce339829b2fff87348e4344c4dee9cb
      else if x < 0x30 then 0x547b9432a6c2233dee4c950b42fac34e
      else if x < 0x40 then 0x082ea16628d924b2765ba2496d8bd125
      else if x < 0x50 then 0x72f8f66486689816d4a45ccc5d65b692
      else if x < 0x60 then 0x6c704850fdedb9da5e154657a78d9d84
      else if x < 0x70 then 0x90d8ab008cbcd30af7e45805b8b34506
      else if x < 0x80 then 0xd02c1e8fca3f0f02c1afbd0301138a6b
      else if x < 0x90 then 0x3a9111414f67dcea97f2cfcef0b4e673
      else if x < 0xa0 then 0x96ac7422e7ad3585e2f937e81c75df6e
      else if x < 0xb0 then 0x47f11a711d29c5896fb7620eaa18be1b
      else if x < 0xc0 then 0xfc563e4bc6d279209adbc0fe78cd5af4
      else if x < 0xd0 then 0x1fdda8338807c731b11210592780ec5f
      else if x < 0xe0 then 0x60517fa919b54a0d2de57a9f93c99cef
      else if x < 0xf0 then 0xa0e03b4dae2af5b0c8ebbb3c83539961
      else 0x172b047eba77d626e169146355210c7d,
      x)
  }

  /** The affine map over GF(2) of the S-box (equation 5.1 of FIPS 197). */
  function Affine(b: bv8): bv8 {
    b ^ b.RotateLeft(1) ^ b.RotateLeft(2) ^ b.RotateLeft(3) ^ b.RotateLeft(4) ^ 0x63
  }

  function InvAffine(b: bv8): bv8 {
    b.RotateLeft(1) ^ b.RotateLeft(3) ^ b.RotateLeft(6) ^ 0x05
  }

  lemma AffineInvAffine(b: bv8)
    ensures Affine(InvAffine(b)) == b
  {
  }

  lemma InvAffineIsInverse(x: bv8)
    ensures Times(x, InvAffine(SBox(x))) == if x == 0 then 0 else 1
  {
    hide XTime, Selected, InvAffine, SBox;
    var y, x1 := InvAffine(SBox(x)), XTime(x);
    var x2 := XTime(x1);
    var x3 := XTime(x2);
    var x4 := XTime(x3);
    var x5 := XTime(x4);
    var x6 := XTime(x5);
    var x7 := XTime(x6);
    if x < 0x40 {
      InverseInFirstQuarter(x, y, x1, x2, x3, x4, x5, x6, x7);
    } else if x < 0x80 {
      InverseInSecondQuarter(x, y, x1, x2, x3, x4, x5, x6, x7);
    } else if x < 0xc0 {
      InverseInThirdQuarter(x, y, x1, x2, x3, x4, x5, x6, x7);
    } else {
      InverseInFourthQuarter(x, y, x1, x2, x3, x4, x5, x6, x7);
    }
  }

  // The quarters of the table, x1 to x7 being the multiples of x by powers of the field's x.

  lemma InverseInFirstQuarter(x: bv8, y: bv8, x1: bv8, x2: bv8, x3: bv8, x4: bv8, x5: bv8, x6: bv8, x7: bv8)
    requires x < 0x40 && y == InvAffine(SBox(x)) && x1 == XTime(x) && x2 == XTime(x1) && x3 == XTime(x2)
    requires x4 == XTime(x3) && x5 == XTime(x4) && x6 == XTime(x5) && x7 == XTime(x6)
    ensures Selected(y, x, x1, x2, x3, x4, x5, x6, x7) == if x == 0 then 0 else 1
  {
  }

  lemma InverseInSecondQuarter(x: bv8, y: bv8, x1: bv8, x2: bv8, x3: bv8, x4: bv8, x5: bv8, x6: bv8, x7: bv8)
    requires 0x40 <= x < 0x80 && y == InvAffine(SBox(x)) && x1 == XTime(x) && x2 == XTime(x1) && x3 == XTime(x2)
    requires x4 == XTime(x3) && x5 == XTime(x4) && x6 == XTime(x5) && x7 == XTime(x6)
    ensures Selected(y, x, x1, x2, x3, x4, x5, x6, x7) == 1
  {
  }

  lemma InverseInThirdQuarter(x: bv8, y: bv8, x1: bv8, x2: bv8, x3: bv8, x4: bv8, x5: bv8, x6: bv8, x7: bv8)
    requires 0x80 <= x < 0xc0 && y == InvAffine(SBox(x)) && x1 == XTime(x) && x2 == XTime(x1) && x3 == XTime(x2)
    requires x4 == XTime(x3) && x5 == XTime(x4) && x6 == XTime(x5) && x7 == XTime(x6)
    ensures Selected(y, x, x1, x2, x3, x4, x5, x6, x7) == 1
  {
  }

  lemma InverseInFourthQuarter(x: bv8, y: bv8, x1: bv8, x2: bv8, x3: bv8, x4: bv8, x5: bv8, x6: bv8, x7: bv8)
    requires 0xc0 <= x && y == InvAffine(SBox(x)) && x1 == XTime(x) && x2 == XTime(x1) && x3 == XTime(x2)
    requires x4 == XTime(x3) && x5 == XTime(x4) && x6 == XTime(x5) && x7 == XTime(x6)
    ensures Selected(y, x, x1, x2, x3, x4, x5, x6, x7) == 1
  {
  }

  /** Every entry of the table is the affine image of the multiplicative inverse of its index (of 0 for index 0). */
  lemma SBoxIsAffineOfInverse(x: bv8)
    ensures exists y :: Times(x, y) == (if x == 0 then 0 else 1) && (x == 0 ==> y == 0) && SBox(x) == Affine(y)
  {
    hide Times, TableEntry;
    InvAffineIsInverse(x);
    AffineInvAffine(SBox(x));
    var y := InvAffine(SBox(x));
    assert x == 0 ==> y == 0 by {
      if x == 0 { SBoxOfZero(); }
    }
    assert Times(x, y) == (if x == 0 then 0 else 1);
  }

  lemma SBoxOfZero()
    ensures InvAffine(SBox(0)) == 0
  {
  }

  lemma InvSBoxOfSBox(x: bv8)
    ensures InvSBox(SBox(x)) == x
  {
  }

  lemma SBoxOfInvSBox(x: bv8)
    ensures SBox(InvSBox(x)) == x
  {
  }
}
