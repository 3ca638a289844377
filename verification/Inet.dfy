/** Dotted-quad IPv4 addresses, `inet.c`. A text is a C string without its terminating NUL. */
module Inet {
  import opened Basics

  const NUL := '\0'

  predicate IsDigit(c: char) {
    '0' <= c <= '9'
  }

  function DigitValue(c: char): (d: nat)
    requires IsDigit(c)
    ensures d < 10 && Digit(d) == c
  {
    (c - '0') as nat
  }

  function Digit(d: nat): (c: char)
    requires d < 10
    ensures IsDigit(c) && (c - '0') as nat == d
  {
    '0' + d as char
  }

  /** n in decimal, without leading zeros. */
  function Decimal(n: nat): (s: string)
    ensures s != "" && forall i :: 0 <= i < |s| ==> IsDigit(s[i])
  {
    if n < 10 then [Digit(n)] else Decimal(n / 10) + [Digit(n % 10)]
  }

  /** Octets with dots in between. */
  function Dotted(octets: seq<Byte>): string {
    if octets == [] then ""
    else if |octets| == 1 then Decimal(octets[0])
    else Dotted(octets[..|octets| - 1]) + "." + Decimal(octets[|octets| - 1])
  }

  // ---- inet_pton_ipv4 ----

  /** What was read so far: the octets, the last one still open if a digit was seen. */
  datatype Scan = Scan(octets: seq<Byte>, sawDigit: bool)

  predicate Valid(scan: Scan) {
    |scan.octets| <= 4 && (scan.sawDigit ==> scan.octets != []) && (|scan.octets| == 4 ==> scan.sawDigit)
  }

  /** Where the next digit goes. */
  function Slot(scan: Scan): (tp: nat)
    requires Valid(scan)
    ensures tp < 4 && tp <= |scan.octets|
  {
    if scan.sawDigit then |scan.octets| - 1 else |scan.octets|
  }

  /** One round of the loop. */
  function Step(scan: Scan, c: char): (r: Option<Scan>)
    requires Valid(scan)
    ensures r.Some? ==> Valid(r.value)
  {
    if IsDigit(c) then
      var octet := if scan.sawDigit then scan.octets[Slot(scan)] else 0;
      var value := octet * 10 + DigitValue(c);
      if (scan.sawDigit && octet == 0) || value > 255 then None
      else Some(Scan(scan.octets[..Slot(scan)] + [value], true))
    else if c == '.' && scan.sawDigit && |scan.octets| < 4 then Some(Scan(scan.octets, false))
    else None
  }

  function Scanned(s: string): (r: Option<Scan>)
    ensures r.Some? ==> Valid(r.value)
  {
    if s == "" then Some(Scan([], false))
    else
      match Scanned(s[..|s| - 1])
      case None => None
      case Some(scan) => Step(scan, s[|s| - 1])
  }

  /** The text a scan stands for. */
  function TextOf(scan: Scan): string {
    if scan.sawDigit || scan.octets == [] then Dotted(scan.octets) else Dotted(scan.octets) + "."
  }

  lemma DottedAppend(octets: seq<Byte>, octet: Byte)
    ensures Dotted(octets + [octet]) == (if octets == [] then "" else Dotted(octets) + ".") + Decimal(octet)
  {
    assert (octets + [octet])[..|octets|] == octets;
  }

  lemma DecimalNext(n: nat, c: char)
    requires n > 0 && IsDigit(c)
    ensures Decimal(10 * n + DigitValue(c)) == Decimal(n) + [c]
  {
    var m := 10 * n + DigitValue(c);
    assert m / 10 == n && m % 10 == DigitValue(c);
  }

  lemma DecimalDigit(c: char)
    requires IsDigit(c)
    ensures Decimal(DigitValue(c)) == [c]
  {
  }

  lemma StepText(scan: Scan, c: char)
    requires Valid(scan) && Step(scan, c).Some?
    ensures TextOf(Step(scan, c).value) == TextOf(scan) + [c]
  {
    hide Decimal, Dotted;
    var octets, tp := scan.octets, Slot(scan);
    if IsDigit(c) {
      DottedAppend(octets[..tp], Step(scan, c).value.octets[tp]);
      if scan.sawDigit {
        assert octets == octets[..tp] + [octets[tp]];
        DottedAppend(octets[..tp], octets[tp]);
        DecimalNext(octets[tp], c);
      } else {
        assert octets[..tp] == octets;
        DottedNone();
        DecimalDigit(c);
      }
    }
  }

  lemma DottedNone()
    ensures Dotted([]) == ""
  {
  }

  lemma {:induction false} ScannedText(s: string)
    requires Scanned(s).Some?
    ensures TextOf(Scanned(s).value) == s
  {
    hide TextOf, Step;
    if s == "" {
      Beginning();
    }
    if s != "" {
      var front := s[..|s| - 1];
      ScannedText(front);
      StepText(Scanned(front).value, s[|s| - 1]);
    }
  }

  lemma Beginning()
    ensures TextOf(Scan([], false)) == ""
  {
  }

  lemma ScannedNext(s: string, c: char)
    requires Scanned(s).Some?
    ensures Scanned(s + [c]) == Step(Scanned(s).value, c)
  {
    assert (s + [c])[..|s|] == s;
  }

  lemma {:induction false} ScanOctet(s: string, octets: seq<Byte>, octet: Byte)
    requires Scanned(s) == Some(Scan(octets, false))
    ensures Scanned(s + Decimal(octet)) == Some(Scan(octets + [octet], true))
    decreases octet
  {
    hide Scanned, Decimal;
    var c := Digit(octet % 10);
    if octet < 10 {
      DecimalDigit(c);
      ScannedNext(s, c);
      assert octets[..|octets|] == octets;
    } else {
      var front := octet / 10;
      ScanOctet(s, octets, front);
      DecimalNext(front, c);
      ScannedNext(s + Decimal(front), c);
      assert s + Decimal(front) + [c] == s + (Decimal(front) + [c]);
      assert (octets + [front])[..|octets|] == octets;
    }
  }

  lemma {:induction false} ScanDotted(octets: seq<Byte>)
    requires 0 < |octets| <= 4
    ensures Scanned(Dotted(octets)) == Some(Scan(octets, true))
  {
    var front, octet := octets[..|octets| - 1], octets[|octets| - 1];
    assert octets == front + [octet];
    DottedAppend(front, octet);
    if front == [] {
      ScanOctet("", [], octet);
      assert "" + Decimal(octet) == Decimal(octet);
    } else {
      ScanDotted(front);
      ScannedNext(Dotted(front), '.');
      ScanOctet(Dotted(front) + ".", front, octet);
    }
  }

  /** `inet_pton_ipv4` as a function: the four bytes, or nothing. */
  function Pton(s: string): Option<seq<Byte>> {
    match Scanned(s)
    case None => None
    case Some(scan) => if |scan.octets| == 4 then Some(scan.octets) else None
  }

  /** Exactly the dotted quads of four numbers up to 255 without leading zeros are accepted, and each for its own numbers. */
  lemma PtonAcceptsDotted(s: string, octets: seq<Byte>)
    ensures Pton(s) == Some(octets) <==> |octets| == 4 && s == Dotted(octets)
  {
    if |octets| == 4 && s == Dotted(octets) {
      ScanDotted(octets);
    }
    if Pton(s) == Some(octets) {
      ScannedText(s);
    }
  }

  lemma StepIs(scan: Scan, c: char, tp: nat)
    requires Valid(scan) && tp == Slot(scan)
    ensures tp < 4 && tp <= |scan.octets| <= 4 && (scan.sawDigit ==> tp == |scan.octets| - 1) && (!scan.sawDigit ==> tp == |scan.octets|)
    ensures Step(scan, c)
            == if IsDigit(c) then
                 var octet := if scan.sawDigit then scan.octets[tp] else 0;
                 var value := octet * 10 + DigitValue(c);
                 if (scan.sawDigit && octet == 0) || value > 255 then None else Some(Scan(scan.octets[..tp] + [value], true))
               else if c == '.' && scan.sawDigit && |scan.octets| < 4 then Some(Scan(scan.octets, false))
               else None
    ensures Step(scan, c).Some? ==> Valid(Step(scan, c).value)
  {
  }

  method PtonIpv4(src: string, dst: array<Byte>) returns (ok: bool)
    requires dst.Length >= 4
    modifies dst
    ensures ok <==> Pton(src).Some?
    ensures ok ==> dst[..4] == Pton(src).value
    ensures !ok ==> dst[..] == old(dst[..])
    ensures dst[4..] == old(dst[4..])
  {
    hide Scanned;
    var tmp := new Byte[4](_ => 0);
    var octets;
    ok, octets := Read(src, tmp);
    if !ok || octets < 4 {
      return false;
    }
    for i := 0 to 4
      modifies dst
      invariant dst[..i] == tmp[..i] && dst[4..] == old(dst[4..])
    {
      dst[i] := tmp[i];
    }
    return true;
  }

  /** Its loop over the characters. */
  method Read(src: string, tmp: array<Byte>) returns (ok: bool, octets: nat)
    requires tmp.Length == 4
    modifies tmp
    ensures ok <==> Scanned(src).Some?
    ensures ok ==> octets <= 4 && Scanned(src).value.octets == tmp[..octets]
  {
    var sawDigit, tp;
    ok, sawDigit, octets, tp := true, false, 0, 0;
    tmp[tp] := 0;
    assert src[..0] == "" && tmp[..0] == [];
    for i := 0 to |src|
      invariant octets <= 4 && Valid(Scan(tmp[..octets], sawDigit)) && tp == Slot(Scan(tmp[..octets], sawDigit))
      invariant Scanned(src[..i]) == Some(Scan(tmp[..octets], sawDigit))
      invariant !sawDigit ==> tmp[tp] == 0
    {
      hide Scanned, Step, Valid, Slot;
      ScannedNext(src[..i], src[i]);
      assert src[..i] + [src[i]] == src[..i + 1];
      ok, sawDigit, octets, tp := ReadCharacter(tmp, sawDigit, octets, tp, src[i]);
      if !ok {
        Rejected(src, i + 1);
        return false, 0;
      }
    }
    assert src[..|src|] == src;
  }

  /** One round of that loop. */
  method ReadCharacter(tmp: array<Byte>, saw: bool, read: nat, slot: nat, ch: char)
      returns (ok: bool, sawDigit: bool, octets: nat, tp: nat)
    requires tmp.Length == 4 && read <= 4 && Valid(Scan(tmp[..read], saw)) && slot == Slot(Scan(tmp[..read], saw))
    requires !saw ==> tmp[slot] == 0
    modifies tmp
    ensures octets <= 4 && ok == Step(Scan(old(tmp[..read]), saw), ch).Some?
    ensures ok ==> Step(Scan(old(tmp[..read]), saw), ch) == Some(Scan(tmp[..octets], sawDigit))
    ensures ok ==> Valid(Scan(tmp[..octets], sawDigit)) && tp == Slot(Scan(tmp[..octets], sawDigit))
    ensures ok && !sawDigit ==> tmp[tp] == 0
  {
    ghost var before := tmp[..read];
    StepIs(Scan(before, saw), ch, slot);
    assert saw ==> before[slot] == tmp[slot];
    sawDigit, octets, tp := saw, read, slot;
    if IsDigit(ch) {
      var value := tmp[tp] as nat * 10 + DigitValue(ch);
      if (sawDigit && tmp[tp] == 0) || value > 255 {
        ok := false;
        return;
      }
      tmp[tp] := value;
      if !sawDigit {
        octets := octets + 1;
        sawDigit := true;
      }
      assert tmp[..octets] == before[..tp] + [value];
      ok := true;
    } else if ch == '.' && sawDigit && octets < 4 {
      tp := tp + 1;
      tmp[tp] := 0;
      sawDigit := false;
      assert tmp[..octets] == before;
      ok := true;
    } else {
      ok := false;
    }
  }

  /** A rejected prefix makes the text rejected. */
  lemma {:induction false} Rejected(s: string, n: nat)
    requires n <= |s| && Scanned(s[..n]).None?
    ensures Scanned(s).None?
    decreases |s|
  {
    if n < |s| {
      assert s[..|s| - 1][..n] == s[..n];
      Rejected(s[..|s| - 1], n);
    } else {
      assert s[..n] == s;
    }
  }

  // ---- inet_aton ----

  /** The character at a position of a C string. */
  function At(s: string, i: nat): char {
    if i < |s| then s[i] else NUL
  }

  predicate IsSpace(c: char) {
    c == ' ' || '\t' <= c <= '\r'
  }

  predicate IsHexLetter(c: char) {
    'a' <= c <= 'f' || 'A' <= c <= 'F'
  }

  predicate InBase(c: char, base: nat) {
    IsDigit(c) || (base == 16 && IsHexLetter(c))
  }

  function HexValue(c: char): nat
    requires IsDigit(c) || IsHexLetter(c)
  {
    if IsDigit(c) then DigitValue(c)
    else if 'a' <= c <= 'f' then (c - 'a') as nat + 10
    else (c - 'A') as nat + 10
  }

  /** The number of a digit string, on 32 bits. A digit string after a leading zero counts in base 8 even if it has an 8 or 9. */
  function Folded(value: Word32, digits: string, base: nat): Word32
    requires forall i :: 0 <= i < |digits| ==> InBase(digits[i], base)
    decreases |digits|
  {
    if digits == "" then value
    else
      assert InBase(digits[0], base);
      Folded((value * base + HexValue(digits[0])) % 0x1_0000_0000, digits[1..], base)
  }

  /** The inner loop from position i: the value and where it stops. */
  function Collected(s: string, i: nat, base: nat, value: Word32): (r: (Word32, nat))
    requires i <= |s|
    ensures i <= r.1 <= |s|
    decreases |s| - i
  {
    if i < |s| && InBase(s[i], base) then Collected(s, i + 1, base, (value * base + HexValue(s[i])) % 0x1_0000_0000)
    else (value, i)
  }

  /** The base of the number at i, and where its digits start. */
  function Base(s: string, i: nat): (r: (nat, nat))
    requires i < |s|
    ensures i <= r.1 <= |s|
  {
    if s[i] != '0' then (10, i)
    else if At(s, i + 1) == 'x' || At(s, i + 1) == 'X' then (16, i + 2)
    else (8, i + 1)
  }

  /** The address of one to four numbers, the last one taking all bytes left. The numbers do not overlap, so that or-ing them
      is adding them. */
  function Address(parts: seq<Word32>): Word32
    requires 1 <= |parts| <= 4
  {
    var last := parts[|parts| - 1];
    if |parts| == 1 then last
    else if exists k :: 0 <= k < |parts| - 1 && parts[k] > 0xff then 0
    else if |parts| == 2 then if last > 0xff_ffff then 0 else parts[0] * 0x100_0000 + last
    else if |parts| == 3 then if last > 0xffff then 0 else parts[0] * 0x100_0000 + parts[1] * 0x1_0000 + last
    else if last > 0xff then 0 else parts[0] * 0x100_0000 + parts[1] * 0x1_0000 + parts[2] * 0x100 + last
  }

  /** The outer loop from position i with the parts read before; 0 is also the answer to a text that is not an address. */
  function AtonFrom(s: string, i: nat, parts: seq<Word32>): Word32
    requires i <= |s| && |parts| <= 3
    decreases |s| - i
  {
    if i == |s| || !IsDigit(s[i]) then 0
    else
      var (base, start) := Base(s, i);
      var (value, k) := Collected(s, start, base, 0);
      if k < |s| && s[k] == '.' then if |parts| == 3 then 0 else AtonFrom(s, k + 1, parts + [value])
      else if k < |s| && !IsSpace(s[k]) then 0
      else Address(parts + [value])
  }

  function AtonOf(s: string): Word32 {
    AtonFrom(s, 0, [])
  }

  /** `inet_aton`. */
  method Aton(cp: string) returns (address: Word32)
    requires NUL !in cp
    ensures address == AtonOf(cp)
  {
    var i, parts: seq<Word32> := 0, [];
    while true
      invariant i <= |cp| && |parts| <= 3
      invariant AtonFrom(cp, i, parts) == AtonOf(cp)
      decreases |cp| - i
    {
      var c := At(cp, i);
      if !IsDigit(c) {
        return 0;
      }
      ghost var from := i;
      var value, base: nat := 0, 10;
      if c == '0' {
        i := i + 1;
        c := At(cp, i);
        if c == 'x' || c == 'X' {
          base := 16;
          i := i + 1;
          c := At(cp, i);
        } else {
          base := 8;
        }
      }
      assert (base, i) == Base(cp, from);
      value, i := Collect(cp, i, base);
      c := At(cp, i);
      if c == '.' {
        if |parts| >= 3 {
          return 0;
        }
        parts := parts + [value];
        i := i + 1;
      } else {
        if c != NUL && !IsSpace(c) {
          return 0;
        }
        assert c == NUL ==> i == |cp|;
        address := Combine(parts + [value]);
        return;
      }
    }
  }

  /** The inner loop. */
  method Collect(cp: string, start: nat, base: nat) returns (value: Word32, i: nat)
    requires start <= |cp| && NUL !in cp
    ensures (value, i) == Collected(cp, start, base, 0)
  {
    value, i := 0, start;
    while InBase(At(cp, i), base)
      invariant start <= i <= |cp|
      invariant Collected(cp, i, base, value) == Collected(cp, start, base, 0)
      decreases |cp| - i
    {
      value := (value * base + HexValue(At(cp, i))) % 0x1_0000_0000;
      i := i + 1;
    }
  }

  /** The switch at its end. */
  method Combine(parts: seq<Word32>) returns (address: Word32)
    requires 1 <= |parts| <= 4
    ensures address == Address(parts)
  {
    var value := parts[|parts| - 1];
    match |parts| {
    case 1 => return value;
    case 2 =>
      if value > 0xff_ffff || parts[0] > 0xff {
        return 0;
      }
      return value + parts[0] * 0x100_0000;
    case 3 =>
      if value > 0xffff || parts[0] > 0xff || parts[1] > 0xff {
        return 0;
      }
      return value + parts[0] * 0x100_0000 + parts[1] * 0x1_0000;
    case _ =>
      if value > 0xff || parts[0] > 0xff || parts[1] > 0xff || parts[2] > 0xff {
        return 0;
      }
      return value + parts[0] * 0x100_0000 + parts[1] * 0x1_0000 + parts[2] * 0x100;
    }
  }

  // ---- what inet_aton reads ----

  /** A number as written in C: decimal, or octal after 0, or hexadecimal after 0x or 0X. */
  datatype Literal = Literal(prefix: string, digits: string)

  function BaseOf(l: Literal): nat {
    if l.prefix == "" then 10 else if l.prefix == "0" then 8 else 16
  }

  predicate IsLiteral(l: Literal) {
    && l.prefix in {"", "0", "0x", "0X"}
    && (forall i :: 0 <= i < |l.digits| ==> InBase(l.digits[i], BaseOf(l)))
    && (l.prefix == "" ==> l.digits != "" && l.digits[0] != '0')
  }

  function Value(l: Literal): Word32
    requires IsLiteral(l)
  {
    Folded(0, l.digits, BaseOf(l))
  }

  predicate AreLiterals(ls: seq<Literal>) {
    forall i :: 0 <= i < |ls| ==> IsLiteral(ls[i])
  }

  function Values(ls: seq<Literal>): (values: seq<Word32>)
    requires AreLiterals(ls)
    ensures |values| == |ls| && forall i :: 0 <= i < |ls| ==> values[i] == Value(ls[i])
  {
    if ls == [] then [] else [Value(ls[0])] + Values(ls[1..])
  }

  /** Numbers with dots in between. */
  function Written(ls: seq<Literal>): string {
    if ls == [] then ""
    else if |ls| == 1 then ls[0].prefix + ls[0].digits
    else ls[0].prefix + ls[0].digits + "." + Written(ls[1..])
  }

  /** What may follow an address: nothing, or a space and anything. */
  predicate MayFollow(rest: string) {
    rest == "" || IsSpace(rest[0])
  }

  lemma {:induction false} CollectsDigits(s: string, i: nat, base: nat, value: Word32, digits: string)
    requires i + |digits| <= |s| && s[i..i + |digits|] == digits
    requires forall k :: 0 <= k < |digits| ==> InBase(digits[k], base)
    requires i + |digits| < |s| ==> !InBase(s[i + |digits|], base)
    ensures Collected(s, i, base, value) == (Folded(value, digits, base), i + |digits|)
    decreases |digits|
  {
    if digits != "" {
      assert s[i] == digits[0];
      assert s[i + 1..i + |digits|] == digits[1..];
      CollectsDigits(s, i + 1, base, (value * base + HexValue(digits[0])) % 0x1_0000_0000, digits[1..]);
    }
  }

  lemma SplitsText(s: string, i: nat, a: string, b: string, c: string)
    requires i <= |s| && s[i..] == a + b + c
    ensures |s| == i + |a| + |b| + |c|
    ensures s[i + |a|..i + |a| + |b|] == b && s[i + |a| + |b|..] == c
  {
    assert (a + b + c)[|a|..|a| + |b|] == b && (a + b + c)[|a| + |b|..] == c;
    assert s[i..][|a|..|a| + |b|] == s[i + |a|..i + |a| + |b|] && s[i..][|a| + |b|..] == s[i + |a| + |b|..];
  }

  /** One number is read as its literal. */
  lemma ReadsLiteral(s: string, i: nat, l: Literal, rest: string)
    requires i <= |s| && s[i..] == l.prefix + l.digits + rest && IsLiteral(l)
    requires rest != "" ==> rest[0] == '.' || IsSpace(rest[0])
    ensures i < |s| && IsDigit(s[i]) && Base(s, i) == (BaseOf(l), i + |l.prefix|)
    ensures i + |l.prefix| + |l.digits| <= |s|
    ensures Collected(s, i + |l.prefix|, BaseOf(l), 0) == (Value(l), i + |l.prefix| + |l.digits|)
    ensures s[i + |l.prefix| + |l.digits|..] == rest
  {
    var whole, start := l.prefix + l.digits + rest, i + |l.prefix|;
    hide Collected, Folded;
    assert |s| == i + |whole|;
    assert forall k :: 0 <= k < |whole| ==> s[i..][k] == s[i + k] == whole[k];
    SplitsText(s, i, l.prefix, l.digits, rest);
    CollectsDigits(s, start, BaseOf(l), 0, l.digits);
  }

  lemma Regroup(a: string, b: string, c: string)
    ensures a + "." + b + c == a + ("." + b + c)
  {
  }

  lemma WrittenIs(ls: seq<Literal>, rest: string)
    requires ls != []
    ensures var l := ls[0];
            Written(ls) + rest == l.prefix + l.digits + (if |ls| == 1 then rest else "." + Written(ls[1..]) + rest)
  {
    var l := ls[0];
    if |ls| > 1 {
      Regroup(l.prefix + l.digits, Written(ls[1..]), rest);
    }
  }

  /** One round of the outer loop. */
  lemma AtonStep(s: string, i: nat, parts: seq<Word32>, l: Literal, after: string)
    requires i <= |s| && s[i..] == l.prefix + l.digits + after && IsLiteral(l) && |parts| <= 3
    requires after != "" ==> after[0] == '.' || IsSpace(after[0])
    ensures var k := i + |l.prefix| + |l.digits|;
            && k <= |s| && s[k..] == after
            && AtonFrom(s, i, parts)
               == if after != "" && after[0] == '.' then if |parts| == 3 then 0 else AtonFrom(s, k + 1, parts + [Value(l)])
                  else Address(parts + [Value(l)])
  {
    hide Address, Collected, Value, Base, IsLiteral, IsSpace;
    ReadsLiteral(s, i, l, after);
    var k := i + |l.prefix| + |l.digits|;
    assert after != "" ==> s[k] == s[k..][0] == after[0];
  }

  lemma ValuesFirst(parts: seq<Word32>, ls: seq<Literal>)
    requires ls != [] && AreLiterals(ls)
    ensures IsLiteral(ls[0]) && AreLiterals(ls[1..])
    ensures parts + Values(ls) == parts + [Value(ls[0])] + Values(ls[1..])
    ensures |ls| == 1 ==> parts + Values(ls) == parts + [Value(ls[0])]
  {
    hide IsLiteral, Value;
    assert Values(ls) == [Value(ls[0])] + Values(ls[1..]);
  }

  lemma AfterDot(s: string, k: nat, more: string)
    requires k <= |s| && s[k..] == "." + more
    ensures k < |s| && s[k + 1..] == more
  {
    assert s[k + 1..] == s[k..][1..];
  }

  lemma {:induction false} AtonReadsFrom(s: string, i: nat, parts: seq<Word32>, ls: seq<Literal>, rest: string)
    requires i <= |s| && s[i..] == Written(ls) + rest && MayFollow(rest)
    requires ls != [] && |parts| + |ls| <= 4 && AreLiterals(ls)
    ensures AtonFrom(s, i, parts) == Address(parts + Values(ls))
    decreases |ls|
  {
    hide Address, AtonFrom, Value, Values, AreLiterals, IsLiteral, Written, IsSpace;
    var l, more := ls[0], ls[1..];
    var after := if |ls| == 1 then rest else "." + Written(more) + rest;
    ValuesFirst(parts, ls);
    WrittenIs(ls, rest);
    AtonStep(s, i, parts, l, after);
    if |ls| == 1 {
      DotIsNoSpace();
    } else {
      var k := i + |l.prefix| + |l.digits|;
      assert "." + Written(more) + rest == "." + (Written(more) + rest);
      AfterDot(s, k, Written(more) + rest);
      AtonReadsFrom(s, k + 1, parts + [Value(l)], more, rest);
    }
  }

  lemma DotIsNoSpace()
    ensures !IsSpace('.')
  {
  }

  /** One to four numbers in the three notations of C, with anything after a space, are read as their address. */
  lemma {:induction false} AtonReads(ls: seq<Literal>, rest: string)
    requires 1 <= |ls| <= 4 && AreLiterals(ls) && MayFollow(rest)
    ensures AtonOf(Written(ls) + rest) == Address(Values(ls))
  {
    var s := Written(ls) + rest;
    assert s[0..] == s && [] + Values(ls) == Values(ls);
    AtonReadsFrom(s, 0, [], ls, rest);
  }

  lemma {:induction false} CollectedDigits(s: string, i: nat, base: nat, value: Word32)
    requires i <= |s|
    ensures var k := Collected(s, i, base, value).1;
            && (forall j :: i <= j < k ==> InBase(s[j], base)) && (k < |s| ==> !InBase(s[k], base))
    decreases |s| - i
  {
    if i < |s| && InBase(s[i], base) {
      CollectedDigits(s, i + 1, base, (value * base + HexValue(s[i])) % 0x1_0000_0000);
    }
  }

  /** What the loops read as a number is a literal. */
  lemma FindsLiteral(s: string, i: nat) returns (l: Literal, k: nat)
    requires i < |s| && IsDigit(s[i])
    ensures var (base, start) := Base(s, i); k == Collected(s, start, base, 0).1
    ensures i <= k <= |s| && s[i..k] == l.prefix + l.digits && IsLiteral(l)
  {
    hide Collected, InBase;
    var (base, start) := Base(s, i);
    CollectedDigits(s, start, base, 0);
    k := Collected(s, start, base, 0).1;
    l := Literal(s[i..start], s[start..k]);
    assert InBase(s[i], base) by {
      DigitInBase(s[i], base);
    }
    assert base == 16 ==> l.prefix == ['0', s[i + 1]];
    assert base == 8 ==> l.prefix == "0";
    assert base == 10 ==> l.prefix == "" && l.digits[0] == s[i];
  }

  lemma DigitInBase(c: char, base: nat)
    requires IsDigit(c)
    ensures InBase(c, base)
  {
  }

  /** A text with an address other than 0 is one to four literals and nothing, or a space and anything, behind them. */
  lemma {:induction false} AtonIsWritten(s: string, i: nat, parts: seq<Word32>) returns (ls: seq<Literal>, rest: string)
    requires i <= |s| && |parts| <= 3 && AtonFrom(s, i, parts) != 0
    ensures 1 <= |ls| <= 4 - |parts| && AreLiterals(ls) && MayFollow(rest) && s[i..] == Written(ls) + rest
    decreases |s| - i
  {
    hide AtonFrom, Collected, IsLiteral, Base, Written, IsSpace;
    var value := NumberAt(s, i, parts);
    var l, k := FindsLiteral(s, i);
    assert s[i..] == s[i..k] + s[k..];
    if k < |s| && s[k] == '.' {
      var more;
      more, rest := AtonIsWritten(s, k + 1, parts + [value]);
      ls := [l] + more;
      assert s[k..] == "." + s[k + 1..];
      assert ls[1..] == more && "." + Written(more) + rest == "." + (Written(more) + rest);
    } else {
      ls, rest := [l], s[k..];
    }
    WrittenIs(ls, rest);
  }

  /** What goes on after a number in a text with an address other than 0. */
  lemma NumberAt(s: string, i: nat, parts: seq<Word32>) returns (value: Word32)
    requires i <= |s| && |parts| <= 3 && AtonFrom(s, i, parts) != 0
    ensures i < |s| && IsDigit(s[i])
    ensures var (base, start) := Base(s, i);
            var k := Collected(s, start, base, 0).1;
            if k < |s| && s[k] == '.' then |parts| < 3 && AtonFrom(s, k + 1, parts + [value]) != 0
            else k < |s| ==> IsSpace(s[k])
  {
    hide Address, Collected, Base, IsSpace;
    var (base, start) := Base(s, i);
    value := Collected(s, start, base, 0).0;
  }

  /** The texts with an address other than 0 are exactly those written so, and their address is that of the numbers. */
  lemma AtonAccepts(s: string)
    requires AtonOf(s) != 0
    ensures exists ls, rest :: 1 <= |ls| <= 4 && AreLiterals(ls) && MayFollow(rest) && s == Written(ls) + rest
                               && AtonOf(s) == Address(Values(ls))
  {
    hide AtonFrom, Written, Address, AreLiterals, MayFollow;
    var ls, rest := AtonIsWritten(s, 0, []);
    assert s[0..] == s;
    AtonReads(ls, rest);
  }

  // ---- inet_ntoa ----

  function BigEndian(octets: seq<Byte>): Word32
    requires |octets| == 4
  {
    octets[0] as nat * 0x100_0000 + octets[1] as nat * 0x1_0000 + octets[2] as nat * 0x100 + octets[3] as nat
  }

  function Octets(address: Word32): (octets: seq<Byte>)
    ensures |octets| == 4 && BigEndian(octets) == address
  {
    var high: nat := address / 0x100;
    var higher: nat := high / 0x100;
    [higher / 0x100, higher % 0x100, high % 0x100, address % 0x100]
  }

  function NtoaOf(address: Word32): string {
    Dotted(Octets(address))
  }

  /** The literal of an octet: decimal digits, but zero counts as octal. */
  function OctetLiteral(octet: Byte): Literal {
    if octet == 0 then Literal("0", "") else Literal("", Decimal(octet))
  }

  lemma {:induction false} FoldedAppend(value: Word32, digits: string, c: char)
    requires (forall i :: 0 <= i < |digits| ==> IsDigit(digits[i])) && IsDigit(c)
    ensures forall i :: 0 <= i < |digits + [c]| ==> IsDigit((digits + [c])[i])
    ensures Folded(value, digits + [c], 10) == (Folded(value, digits, 10) * 10 + DigitValue(c)) % 0x1_0000_0000
    decreases |digits|
  {
    var all := digits + [c];
    if digits == "" {
      assert all[1..] == "";
    } else {
      assert all[1..] == digits[1..] + [c];
      FoldedAppend((value * 10 + HexValue(digits[0])) % 0x1_0000_0000, digits[1..], c);
    }
  }

  lemma {:induction false} FoldedDecimal(n: nat)
    requires n < 0x1_0000_0000
    ensures Folded(0, Decimal(n), 10) == n
    ensures n > 0 ==> Decimal(n)[0] != '0'
    decreases n
  {
    if n >= 10 {
      FoldedDecimal(n / 10);
      FoldedAppend(0, Decimal(n / 10), Digit(n % 10));
    }
  }

  function Literals(octets: seq<Byte>): (ls: seq<Literal>)
    ensures |ls| == |octets| && forall i :: 0 <= i < |ls| ==> ls[i] == OctetLiteral(octets[i])
  {
    if octets == [] then [] else [OctetLiteral(octets[0])] + Literals(octets[1..])
  }

  lemma LiteralOfOctet(octet: Byte)
    ensures var l := OctetLiteral(octet); IsLiteral(l) && Value(l) == octet && l.prefix + l.digits == Decimal(octet)
  {
    FoldedDecimal(octet);
  }

  lemma {:induction false} FourWritten(octets: seq<Byte>)
    requires |octets| == 4
    ensures Written(Literals(octets)) == Dotted(octets)
    ensures AreLiterals(Literals(octets)) && Values(Literals(octets)) == octets
  {
    hide Decimal, IsLiteral, Value, OctetLiteral, Dotted, Literals, Written;
    var ls := Literals(octets);
    forall i | 0 <= i < 4
      ensures IsLiteral(ls[i]) && Value(ls[i]) == octets[i] && ls[i].prefix + ls[i].digits == Decimal(octets[i])
    {
      LiteralOfOctet(octets[i]);
    }
    FourLiterals(ls);
    FourDotted(octets);
  }

  lemma FourLiterals(ls: seq<Literal>)
    requires |ls| == 4
    ensures Written(ls) == (ls[0].prefix + ls[0].digits) + "." + (ls[1].prefix + ls[1].digits) + "."
                           + (ls[2].prefix + ls[2].digits) + "." + (ls[3].prefix + ls[3].digits)
  {
    assert ls[1..][1..] == ls[2..] && ls[2..][1..] == ls[3..];
    assert Written(ls[3..]) == ls[3].prefix + ls[3].digits;
    assert Written(ls[2..]) == ls[2].prefix + ls[2].digits + "." + Written(ls[3..]);
    assert Written(ls[1..]) == ls[1].prefix + ls[1].digits + "." + Written(ls[2..]);
  }

  lemma AddressOfOctets(octets: seq<Byte>)
    requires |octets| == 4
    ensures Address(octets) == BigEndian(octets)
  {
  }

  /** Where `inet_pton_ipv4` accepts a text, `inet_aton` gives the same bytes as one number. */
  lemma AtonAgreesWithPton(s: string)
    requires Pton(s).Some?
    ensures AtonOf(s) == BigEndian(Pton(s).value)
  {
    hide Pton, AtonOf, Address;
    var octets := Pton(s).value;
    PtonAcceptsDotted(s, octets);
    FourWritten(octets);
    AtonReads(Literals(octets), "");
    assert Written(Literals(octets)) + "" == s;
    AddressOfOctets(octets);
  }

  /** The texts accepted are exactly those that `inet_ntoa` prints. */
  lemma PtonAcceptsNtoa(s: string)
    ensures Pton(s).Some? <==> exists address: Word32 :: s == NtoaOf(address)
  {
    hide Pton, Dotted;
    if Pton(s).Some? {
      var octets := Pton(s).value;
      PtonAcceptsDotted(s, octets);
      BytesOf(octets);
      assert s == NtoaOf(BigEndian(octets));
    }
    if address: Word32 :| s == NtoaOf(address) {
      PtonAcceptsDotted(s, Octets(address));
    }
  }

  lemma OneByte(a: nat, r: Byte, b: nat, t: Byte)
    requires a * 0x100 + r == b * 0x100 + t
    ensures a == b && r == t
  {
  }

  lemma BytesOf(octets: seq<Byte>)
    requires |octets| == 4
    ensures Octets(BigEndian(octets)) == octets
  {
    hide Octets;
    var o, p := octets, Octets(BigEndian(octets));
    var o1, p1 := o[0] as nat * 0x100 + o[1], p[0] as nat * 0x100 + p[1];
    var o2, p2 := o1 * 0x100 + o[2], p1 * 0x100 + p[2];
    OneByte(o2, o[3], p2, p[3]);
    OneByte(o1, o[2], p1, p[2]);
    OneByte(o[0], o[1], p[0], p[1]);
  }

  /** Every address printed is read back. */
  lemma AtonOfNtoa(address: Word32)
    ensures AtonOf(NtoaOf(address)) == address && Pton(NtoaOf(address)) == Some(Octets(address))
  {
    hide Pton, AtonOf;
    PtonAcceptsDotted(NtoaOf(address), Octets(address));
    AtonAgreesWithPton(NtoaOf(address));
  }

  /** `integer_to_ascii` of an unsigned char. */
  method IntegerToAscii(destination: array<char>, offset: nat, source: Byte) returns (length: nat)
    requires offset + 3 <= destination.Length
    modifies destination
    ensures 1 <= length <= 3
    ensures destination[..offset + length] == old(destination[..offset]) + Decimal(source)
  {
    var temp, next := source, offset;
    length := 0;
    if source >= 100 {
      destination[next] := Digit(temp / 100);
      next := next + 1;
      temp := temp % 100;
      length := length + 1;
    }
    if source >= 10 {
      destination[next] := Digit(temp / 10);
      next := next + 1;
      temp := temp % 10;
      length := length + 1;
    }
    destination[next] := Digit(temp);
    length := length + 1;
    DecimalOfByte(source);
  }

  lemma {:induction false} DecimalOfByte(n: Byte)
    ensures n < 10 ==> Decimal(n) == [Digit(n)]
    ensures 10 <= n < 100 ==> Decimal(n) == [Digit(n / 10), Digit(n % 10)]
    ensures 100 <= n ==> Decimal(n) == [Digit(n / 100), Digit(n % 100 / 10), Digit(n % 100 % 10)]
  {
    if n >= 100 {
      assert n / 10 / 10 == n / 100 && n / 10 % 10 == n % 100 / 10 && n % 10 == n % 100 % 10;
      assert Decimal(n / 10) == [Digit(n / 100)] + [Digit(n % 100 / 10)];
    }
  }

  /** `inet_ntoa` into its static buffer. */
  method Ntoa(address: Word32, buffer: array<char>) returns (length: nat)
    requires buffer.Length == 20
    modifies buffer
    ensures length < buffer.Length && buffer[..length] == NtoaOf(address) && buffer[length] == NUL
  {
    hide Decimal, Dotted, Octets;
    var ip := Octets(address);
    length := PutOctet(buffer, 0, ip[0]);
    length := PutOctet(buffer, length, ip[1]);
    length := PutOctet(buffer, length, ip[2]);
    var n := IntegerToAscii(buffer, length, ip[3]);
    length := length + n;
    FourInRow(ip);
    buffer[length] := NUL;
  }

  /** An octet and the dot after it. */
  method PutOctet(buffer: array<char>, offset: nat, octet: Byte) returns (length: nat)
    requires offset + 4 <= buffer.Length
    modifies buffer
    ensures offset + 2 <= length <= offset + 4 && buffer[..length] == old(buffer[..offset]) + (Decimal(octet) + ".")
  {
    hide Decimal;
    var n := IntegerToAscii(buffer, offset, octet);
    length := offset + n;
    buffer[length] := '.';
    length := length + 1;
  }

  lemma FourInRow(octets: seq<Byte>)
    requires |octets| == 4
    ensures [] + (Decimal(octets[0]) + ".") + (Decimal(octets[1]) + ".") + (Decimal(octets[2]) + ".") + Decimal(octets[3])
            == Dotted(octets)
  {
    hide Decimal, Dotted;
    FourDotted(octets);
  }

  lemma FourDotted(octets: seq<Byte>)
    requires |octets| == 4
    ensures Dotted(octets) == Decimal(octets[0]) + "." + Decimal(octets[1]) + "." + Decimal(octets[2]) + "." + Decimal(octets[3])
  {
    hide Decimal;
    assert octets[..3][..2] == octets[..2] && octets[..2][..1] == octets[..1] && octets[..1] == [octets[0]];
    assert Dotted(octets[..1]) == Decimal(octets[0]);
    assert Dotted(octets[..2]) == Decimal(octets[0]) + "." + Decimal(octets[1]);
    assert Dotted(octets[..3]) == Decimal(octets[0]) + "." + Decimal(octets[1]) + "." + Decimal(octets[2]);
  }
}
