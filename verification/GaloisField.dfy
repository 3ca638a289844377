/** Arithmetic of the AES field GF(2^8) with the modulus x^8 + x^4 + x^3 + x + 1,
    section 4 of FIPS 197. The source computes in it with `galois_mul2` only. */
module GaloisField {

  /** Addition in the field (section 4.1 of FIPS 197). */
  function Add(a: bv8, b: bv8): bv8 {
    a ^ b
  }

  function Add4(a: bv8, b: bv8, c: bv8, d: bv8): bv8 {
    Add(Add(a, b), Add(c, d))
  }

  /** Multiplication by x, the source's `galois_mul2`. */
  function XTime(x: bv8): bv8 {
    if x & 0x80 != 0 then (x << 1) ^ 0x1b else x << 1
  }

  /** The field product a * b: the multiples x^i * a selected by the bits of b (section 4.2.1 of FIPS 197). */
  function Times(a: bv8, b: bv8): bv8 {
    var a1 := XTime(a);
    var a2 := XTime(a1);
    var a3 := XTime(a2);
    var a4 := XTime(a3);
    var a5 := XTime(a4);
    var a6 := XTime(a5);
    var a7 := XTime(a6);
    Selected(b, a, a1, a2, a3, a4, a5, a6, a7)
  }

  /** The sum of the summands at the bits of b. */
  function Selected(b: bv8, a: bv8, a1: bv8, a2: bv8, a3: bv8, a4: bv8, a5: bv8, a6: bv8, a7: bv8): bv8 {
    (if b & 0x01 != 0 then a else 0) ^ (if b & 0x02 != 0 then a1 else 0)
    ^ (if b & 0x04 != 0 then a2 else 0) ^ (if b & 0x08 != 0 then a3 else 0)
    ^ (if b & 0x10 != 0 then a4 else 0) ^ (if b & 0x20 != 0 then a5 else 0)
    ^ (if b & 0x40 != 0 then a6 else 0) ^ (if b & 0x80 != 0 then a7 else 0)
  }

  /** One byte of MixColumns(): the byte of row r, the column being read from row r on
      (section 5.1.3 of FIPS 197). */
  function MixByte(a: bv8, b: bv8, c: bv8, d: bv8): bv8 {
    Add4(Times(a, 0x02), Times(b, 0x03), c, d)
  }

  /** One byte of InvMixColumns() (section 5.3.3 of FIPS 197). */
  function UnmixByte(a: bv8, b: bv8, c: bv8, d: bv8): bv8 {
    Add4(Times(a, 0x0e), Times(b, 0x0b), Times(c, 0x0d), Times(d, 0x09))
  }

  // ---- addition is associative and commutative ----

  lemma AddSymmetric(a: bv8, b: bv8)
    ensures Add(a, b) == Add(b, a)
  {
  }

  lemma AddAssociative(a: bv8, b: bv8, c: bv8)
    ensures Add(Add(a, b), c) == Add(a, Add(b, c))
  {
  }

  lemma AddZero(a: bv8)
    ensures Add(a, 0) == a
  {
  }

  lemma AddTwice(a: bv8, b: bv8)
    ensures Add(Add(a, b), b) == a
  {
  }

  lemma Exchange(a: bv8, b: bv8, c: bv8, d: bv8)
    ensures Add(Add(a, b), Add(c, d)) == Add(Add(a, c), Add(b, d))
  {
    hide Add;
    AddAssociative(a, b, Add(c, d));
    AddAssociative(b, c, d);
    AddSymmetric(b, c);
    AddAssociative(c, b, d);
    AddAssociative(a, c, Add(b, d));
  }

  lemma Rotate(a: bv8, b: bv8, c: bv8, d: bv8)
    ensures Add4(a, b, c, d) == Add4(d, a, b, c)
  {
    hide Add;
    AddSymmetric(Add(a, b), Add(c, d));
    AddSymmetric(c, d);
    Exchange(d, c, a, b);
    AddSymmetric(c, b);
  }

  lemma AddRows(a0: bv8, b0: bv8, c0: bv8, d0: bv8, a1: bv8, b1: bv8, c1: bv8, d1: bv8)
    ensures Add(Add4(a0, b0, c0, d0), Add4(a1, b1, c1, d1))
            == Add4(Add(a0, a1), Add(b0, b1), Add(c0, c1), Add(d0, d1))
  {
    hide Add;
    Exchange(Add(a0, b0), Add(c0, d0), Add(a1, b1), Add(c1, d1));
    Exchange(a0, b0, a1, b1);
    Exchange(c0, d0, c1, d1);
  }

  // ---- multiplication by the constants of the cipher is linear ----

  lemma XTimeLinear(a: bv8, b: bv8)
    ensures XTime(Add(a, b)) == Add(XTime(a), XTime(b))
  {
    if a & 0x80 != 0 {
      if b & 0x80 != 0 {
      } else {
      }
    } else {
      if b & 0x80 != 0 {
      } else {
      }
    }
  }

  lemma Times02(a: bv8)
    ensures Times(a, 0x02) == XTime(a)
  {
    hide XTime;
  }

  lemma Times03(a: bv8)
    ensures Times(a, 0x03) == Add(XTime(a), a)
  {
    hide XTime;
  }

  lemma Times09(a: bv8)
    ensures Times(a, 0x09) == Add(XTime(XTime(XTime(a))), a)
  {
    hide XTime;
  }

  lemma Times0b(a: bv8)
    ensures Times(a, 0x0b) == Add(XTime(XTime(XTime(a))), Add(XTime(a), a))
  {
    hide XTime;
  }

  lemma Times0d(a: bv8)
    ensures Times(a, 0x0d) == Add(XTime(XTime(XTime(a))), Add(XTime(XTime(a)), a))
  {
    hide XTime;
  }

  lemma Times0e(a: bv8)
    ensures Times(a, 0x0e) == Add(XTime(XTime(XTime(a))), Add(XTime(XTime(a)), XTime(a)))
  {
    hide XTime;
  }

  /** The constants of MixColumns() and InvMixColumns(). */
  predicate Coefficient(k: bv8) {
    k == 0x02 || k == 0x03 || k == 0x09 || k == 0x0b || k == 0x0d || k == 0x0e
  }

  lemma TimesLinear(a: bv8, b: bv8, k: bv8)
    requires Coefficient(k)
    ensures Times(Add(a, b), k) == Add(Times(a, k), Times(b, k))
  {
    hide Add, Times, XTime;
    var a1, b1, s := XTime(a), XTime(b), Add(a, b);
    var a2, b2, a3, b3 := XTime(a1), XTime(b1), XTime(XTime(a1)), XTime(XTime(b1));
    XTimeLinear(a, b);
    XTimeLinear(a1, b1);
    XTimeLinear(a2, b2);
    if k == 0x02 {
      Times02(a); Times02(b); Times02(s);
    } else if k == 0x03 {
      Times03(a); Times03(b); Times03(s);
      Exchange(a1, b1, a, b);
    } else if k == 0x09 {
      Times09(a); Times09(b); Times09(s);
      Exchange(a3, b3, a, b);
    } else if k == 0x0b {
      Times0b(a); Times0b(b); Times0b(s);
      Exchange(a1, b1, a, b);
      Exchange(a3, b3, Add(a1, a), Add(b1, b));
    } else if k == 0x0d {
      Times0d(a); Times0d(b); Times0d(s);
      Exchange(a2, b2, a, b);
      Exchange(a3, b3, Add(a2, a), Add(b2, b));
    } else {
      Times0e(a); Times0e(b); Times0e(s);
      Exchange(a2, b2, a1, b1);
      Exchange(a3, b3, Add(a2, a1), Add(b2, b1));
    }
  }

  lemma TimesAdd4(a: bv8, b: bv8, c: bv8, d: bv8, k: bv8)
    requires Coefficient(k)
    ensures Times(Add4(a, b, c, d), k) == Add4(Times(a, k), Times(b, k), Times(c, k), Times(d, k))
  {
    hide Add, Times, Coefficient;
    TimesLinear(Add(a, b), Add(c, d), k);
    TimesLinear(a, b, k);
    TimesLinear(c, d, k);
  }

  // ---- InvMixColumns() undoes MixColumns() ----

  // The coefficients of the product of the two column polynomials: 1 for the byte itself, 0 for the other three.

  // Cancelling equal summands.

  lemma AddSelf(a: bv8)
    ensures Add(a, a) == 0
  {
  }

  lemma CancelInner(u: bv8, v: bv8, w: bv8, q: bv8)
    ensures Add(Add(u, Add(v, w)), Add(v, q)) == Add(u, Add(w, q))
  {
  }

  lemma CancelBoth(v: bv8, w: bv8, a: bv8, u: bv8)
    ensures Add(Add(v, Add(w, a)), Add(u, Add(v, a))) == Add(w, u)
  {
  }

  lemma CancelCross(v: bv8, p: bv8, u: bv8, q: bv8)
    ensures Add(Add(v, p), Add(Add(u, p), Add(v, q))) == Add(u, q)
  {
  }

  lemma CancelSame(u: bv8, v: bv8, w: bv8, d: bv8)
    ensures Add(Add(u, Add(v, w)), Add(u, Add(w, d))) == Add(v, d)
  {
  }

  lemma CancelSecond(u: bv8, w: bv8, p: bv8)
    ensures Add(Add(u, Add(w, p)), Add(u, p)) == w
    ensures Add(Add(u, Add(p, w)), Add(u, p)) == w
  {
  }

  lemma CancelRest(u: bv8, v: bv8, w: bv8, a: bv8)
    ensures Add(Add(u, Add(v, Add(w, a))), Add(v, Add(u, w))) == a
  {
  }

  // The multiples by the coefficients, added up as multiples by powers of x.

  lemma OwnSum(a: bv8, x1: bv8, x2: bv8, x3: bv8, x4: bv8)
    ensures Add4(Add(x4, Add(x3, x2)), Add(x3, Add(x1, a)), Add(x3, Add(x2, a)), Add(Add(x4, x1), Add(x3, a))) == a
  {
    hide Add;
    CancelInner(x4, x3, x2, Add(x1, a));
    CancelBoth(x3, x2, a, Add(x4, x1));
    CancelRest(x4, x2, x1, a);
  }

  lemma NextSum(b: bv8, x1: bv8, x2: bv8, x3: bv8, x4: bv8)
    ensures Add4(Add(Add(x4, Add(x3, x2)), Add(x3, Add(x2, x1))), Add(x4, Add(x2, x1)), Add(x3, Add(x2, b)), Add(x3, b)) == 0
  {
    hide Add;
    CancelInner(x4, x3, x2, Add(x2, x1));
    CancelSecond(x4, x2, Add(x2, x1));
    CancelSecond(x3, x2, b);
    AddSelf(x2);
  }

  lemma OppositeSum(c: bv8, x1: bv8, x2: bv8, x3: bv8, x4: bv8)
    ensures Add4(Add(x3, Add(x2, x1)), Add(Add(x4, Add(x2, x1)), Add(x3, Add(x1, c))), Add(x4, Add(x3, x1)), Add(x3, c)) == 0
  {
    hide Add;
    CancelCross(x3, Add(x2, x1), x4, Add(x1, c));
    CancelInner(x4, x3, x1, c);
    AddSelf(Add(x4, Add(x1, c)));
  }

  lemma PreviousSum(d: bv8, x1: bv8, x2: bv8, x3: bv8, x4: bv8)
    ensures Add4(Add(x3, Add(x2, x1)), Add(x3, Add(x1, d)), Add(Add(x4, Add(x3, x1)), Add(x3, Add(x2, d))), Add(x4, x1)) == 0
  {
    hide Add;
    CancelSame(x3, x2, x1, d);
    CancelInner(x4, x3, x1, Add(x2, d));
    CancelSecond(x4, Add(x2, d), x1);
    AddSelf(Add(x2, d));
  }

  lemma OwnCoefficient(a: bv8)
    ensures Add4(Times(Times(a, 0x02), 0x0e), Times(a, 0x0b), Times(a, 0x0d), Times(Times(a, 0x03), 0x09)) == a
  {
    hide Add, Times, XTime;
    Times02(a);
    Times03(a);
    Times0e(XTime(a));
    Times0b(a);
    Times0d(a);
    TimesLinear(XTime(a), a, 0x09);
    Times09(a);
    Times09(XTime(a));
    var x1, x2 := XTime(a), XTime(XTime(a));
    OwnSum(a, x1, x2, XTime(x2), XTime(XTime(x2)));
  }

  lemma NextCoefficient(b: bv8)
    ensures Add4(Times(Times(b, 0x03), 0x0e), Times(Times(b, 0x02), 0x0b), Times(b, 0x0d), Times(b, 0x09)) == 0
  {
    hide Add, Times, XTime;
    Times02(b);
    Times03(b);
    TimesLinear(XTime(b), b, 0x0e);
    Times0e(b);
    Times0e(XTime(b));
    Times0b(XTime(b));
    Times0d(b);
    Times09(b);
    var x1, x2 := XTime(b), XTime(XTime(b));
    NextSum(b, x1, x2, XTime(x2), XTime(XTime(x2)));
  }

  lemma OppositeCoefficient(c: bv8)
    ensures Add4(Times(c, 0x0e), Times(Times(c, 0x03), 0x0b), Times(Times(c, 0x02), 0x0d), Times(c, 0x09)) == 0
  {
    hide Add, Times, XTime;
    Times02(c);
    Times03(c);
    Times0e(c);
    TimesLinear(XTime(c), c, 0x0b);
    Times0b(c);
    Times0b(XTime(c));
    Times0d(XTime(c));
    Times09(c);
    var x1, x2 := XTime(c), XTime(XTime(c));
    OppositeSum(c, x1, x2, XTime(x2), XTime(XTime(x2)));
  }

  lemma PreviousCoefficient(d: bv8)
    ensures Add4(Times(d, 0x0e), Times(d, 0x0b), Times(Times(d, 0x03), 0x0d), Times(Times(d, 0x02), 0x09)) == 0
  {
    hide Add, Times, XTime;
    Times02(d);
    Times03(d);
    Times0e(d);
    Times0b(d);
    TimesLinear(XTime(d), d, 0x0d);
    Times0d(d);
    Times0d(XTime(d));
    Times09(XTime(d));
    var x1, x2 := XTime(d), XTime(XTime(d));
    PreviousSum(d, x1, x2, XTime(x2), XTime(XTime(x2)));
  }

  lemma AddZeros(a: bv8)
    ensures Add4(a, 0, 0, 0) == a
  {
  }

  lemma Transpose(a0: bv8, b0: bv8, c0: bv8, d0: bv8, a1: bv8, b1: bv8, c1: bv8, d1: bv8,
                  a2: bv8, b2: bv8, c2: bv8, d2: bv8, a3: bv8, b3: bv8, c3: bv8, d3: bv8)
    ensures Add4(Add4(a0, b0, c0, d0), Add4(a1, b1, c1, d1), Add4(a2, b2, c2, d2), Add4(a3, b3, c3, d3))
            == Add4(Add4(a0, a1, a2, a3), Add4(b0, b1, b2, b3), Add4(c0, c1, c2, c3), Add4(d0, d1, d2, d3))
  {
    hide Add;
    AddRows(a0, b0, c0, d0, a1, b1, c1, d1);
    AddRows(a2, b2, c2, d2, a3, b3, c3, d3);
    AddRows(Add(a0, a1), Add(b0, b1), Add(c0, c1), Add(d0, d1), Add(a2, a3), Add(b2, b3), Add(c2, c3), Add(d2, d3));
  }

  lemma UnmixMix(a: bv8, b: bv8, c: bv8, d: bv8)
    ensures UnmixByte(MixByte(a, b, c, d), MixByte(b, c, d, a), MixByte(c, d, a, b), MixByte(d, a, b, c)) == a
  {
    hide Add, Add4, Times;
    TimesAdd4(Times(a, 0x02), Times(b, 0x03), c, d, 0x0e);
    TimesAdd4(Times(b, 0x02), Times(c, 0x03), d, a, 0x0b);
    TimesAdd4(Times(c, 0x02), Times(d, 0x03), a, b, 0x0d);
    TimesAdd4(Times(d, 0x02), Times(a, 0x03), b, c, 0x09);
    Rotate(Times(Times(b, 0x02), 0x0b), Times(Times(c, 0x03), 0x0b), Times(d, 0x0b), Times(a, 0x0b));
    Rotate(Times(Times(c, 0x02), 0x0d), Times(Times(d, 0x03), 0x0d), Times(a, 0x0d), Times(b, 0x0d));
    Rotate(Times(b, 0x0d), Times(Times(c, 0x02), 0x0d), Times(Times(d, 0x03), 0x0d), Times(a, 0x0d));
    Rotate(Times(Times(a, 0x03), 0x09), Times(b, 0x09), Times(c, 0x09), Times(Times(d, 0x02), 0x09));
    Transpose(Times(Times(a, 0x02), 0x0e), Times(Times(b, 0x03), 0x0e), Times(c, 0x0e), Times(d, 0x0e),
              Times(a, 0x0b), Times(Times(b, 0x02), 0x0b), Times(Times(c, 0x03), 0x0b), Times(d, 0x0b),
              Times(a, 0x0d), Times(b, 0x0d), Times(Times(c, 0x02), 0x0d), Times(Times(d, 0x03), 0x0d),
              Times(Times(a, 0x03), 0x09), Times(b, 0x09), Times(c, 0x09), Times(Times(d, 0x02), 0x09));
    OwnCoefficient(a);
    NextCoefficient(b);
    OppositeCoefficient(c);
    PreviousCoefficient(d);
    AddZeros(a);
  }

  // ---- the source's forms of the two column transformations ----

  /** The source mixes a column with one doubling a byte. */
  lemma MixByteOneDoubling(a: bv8, b: bv8, c: bv8, d: bv8)
    ensures Add(Add(a, XTime(Add(a, b))), Add(Add(Add(a, b), c), d)) == MixByte(a, b, c, d)
  {
    hide XTime, Times, Add;
    var x, y := XTime(a), XTime(b);
    Times02(a);
    Times03(b);
    XTimeLinear(a, b);
    AddAssociative(Add(a, b), c, d);
    AddSymmetric(a, Add(x, y));
    Exchange(Add(x, y), a, Add(a, b), Add(c, d));
    AddAssociative(Add(x, y), Add(a, b), Add(a, Add(c, d)));
    AddAssociative(x, y, Add(Add(a, b), Add(a, Add(c, d))));
    CancelFirst(a, b, Add(c, d));
    AddAssociative(x, y, Add(b, Add(c, d)));
    AddAssociative(y, b, Add(c, d));
    AddAssociative(x, Add(y, b), Add(c, d));
  }

  lemma CancelFirst(a: bv8, b: bv8, e: bv8)
    ensures Add(Add(a, b), Add(a, e)) == Add(b, e)
  {
    hide Add;
    AddSymmetric(a, b);
    AddAssociative(b, a, Add(a, e));
    AddSymmetric(a, Add(a, e));
    AddSymmetric(a, e);
    AddTwice(e, a);
  }

  /** What one byte adds to the unmixed column equals what it adds to the mixed one after Barreto's step. */
  lemma BarretoCoefficients(a: bv8)
    ensures Times(a, 0x0e) == Add(Add(Times(a, 0x02), Times(XTime(XTime(a)), 0x02)), XTime(XTime(a)))
    ensures Times(a, 0x0b) == Add(Add(Times(a, 0x03), Times(XTime(XTime(a)), 0x03)), XTime(XTime(a)))
    ensures Times(a, 0x0d) == Add(Times(XTime(XTime(a)), 0x02), Add(a, XTime(XTime(a))))
    ensures Times(a, 0x09) == Add(Times(XTime(XTime(a)), 0x03), Add(a, XTime(XTime(a))))
  {
    hide Add, Times, XTime;
    var x1, x2 := XTime(a), XTime(XTime(a));
    Times02(a);
    Times03(a);
    Times09(a);
    Times0b(a);
    Times0d(a);
    Times0e(a);
    Times02(x2);
    Times03(x2);
    BarretoSums(a, x1, x2, XTime(x2));
  }

  lemma BarretoSums(a: bv8, x1: bv8, x2: bv8, x3: bv8)
    ensures Add(x3, Add(x2, x1)) == Add(Add(x1, x3), x2)
    ensures Add(x3, Add(x1, a)) == Add(Add(Add(x1, a), Add(x3, x2)), x2)
    ensures Add(x3, Add(x2, a)) == Add(x3, Add(a, x2))
    ensures Add(x3, a) == Add(Add(x3, x2), Add(a, x2))
  {
    hide Add;
    Turn(x3, x2, x1);
    TakeLast(x3, x2, Add(x1, a));
    AddSymmetric(x2, a);
    TakeBoth(x3, x2, a);
  }

  lemma Turn(u: bv8, v: bv8, w: bv8)
    ensures Add(u, Add(v, w)) == Add(Add(w, u), v)
  {
  }

  lemma TakeLast(u: bv8, v: bv8, p: bv8)
    ensures Add(u, p) == Add(Add(p, Add(u, v)), v)
  {
  }

  lemma TakeBoth(u: bv8, v: bv8, a: bv8)
    ensures Add(u, a) == Add(Add(u, v), Add(a, v))
  {
  }

  /** Barreto's pre-step: adding 4 * (a + c) to the even rows and 4 * (b + d) to the odd rows
      turns InvMixColumns() into the forward MixColumns(). */
  lemma Barreto(a: bv8, b: bv8, c: bv8, d: bv8, u: bv8, v: bv8)
    requires u == XTime(XTime(Add(a, c))) && v == XTime(XTime(Add(b, d)))
    ensures MixByte(Add(a, u), Add(b, v), Add(c, u), Add(d, v)) == UnmixByte(a, b, c, d)
  {
    hide Add, XTime, Times;
    var a4, b4, c4, d4 := XTime(XTime(a)), XTime(XTime(b)), XTime(XTime(c)), XTime(XTime(d));
    XTimeLinear(a, c);
    XTimeLinear(XTime(a), XTime(c));
    XTimeLinear(b, d);
    XTimeLinear(XTime(b), XTime(d));
    TimesLinear(a, u, 0x02);
    TimesLinear(a4, c4, 0x02);
    AddAssociative(Times(a, 0x02), Times(a4, 0x02), Times(c4, 0x02));
    TimesLinear(b, v, 0x03);
    TimesLinear(b4, d4, 0x03);
    AddAssociative(Times(b, 0x03), Times(b4, 0x03), Times(d4, 0x03));
    MoveInner(c, a4, c4);
    MoveInner(d, b4, d4);
    var p1, p2 := Add(Times(a, 0x02), Times(a4, 0x02)), Times(c4, 0x02);
    var q1, q2 := Add(Times(b, 0x03), Times(b4, 0x03)), Times(d4, 0x03);
    Exchange(p1, p2, q1, q2);
    Exchange(a4, Add(c, c4), b4, Add(d, d4));
    AddRows(p1, q1, p2, q2, a4, b4, Add(c, c4), Add(d, d4));
    BarretoCoefficients(a);
    BarretoCoefficients(b);
    BarretoCoefficients(c);
    BarretoCoefficients(d);
  }

  lemma MoveInner(c: bv8, a4: bv8, c4: bv8)
    ensures Add(c, Add(a4, c4)) == Add(a4, Add(c, c4))
  {
    hide Add;
    AddAssociative(c, a4, c4);
    AddSymmetric(c, a4);
    AddAssociative(a4, c, c4);
  }
}
