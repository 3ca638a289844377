/** The configuration store of `nonvolatile_memory.c`: one 32-byte EEPROM page a field, the type and the version of the field
    in front, and names and passwords spread over several pages. */
module Eeprom {
  import opened Basics

  const EEPROM_SIZE := 4096
  const PAGE_SIZE := 32
  const CHUNK := 30

  /** The last page is never searched or written; the boot loader keeps its flag there. */
  const PAGES := 127

  const CFG_WIFI_SSID: Byte := 5
  const CFG_WIFI_PASS: Byte := 6
  const CFG_WIFI_SSID_SEC: Byte := 27
  const CFG_WIFI_PASS_SEC: Byte := 28
  const CFG_WIFI_PASS_THIRD: Byte := 29
  const CFG_EMPTY: Byte := 255

  // ---- the store ----

  datatype Page = Page(version: Byte, payload: seq<Byte>)

  type Memory = m: seq<Byte> | |m| == EEPROM_SIZE witness seq(EEPROM_SIZE, _ => CFG_EMPTY)

  function TypeAt(m: Memory, p: nat): Byte
    requires p < PAGES
  {
    m[PAGE_SIZE * p]
  }

  function PageAt(m: Memory, p: nat): (page: Page)
    requires p < PAGES
    ensures |page.payload| == CHUNK
  {
    Page(m[PAGE_SIZE * p + 1], m[PAGE_SIZE * p + 2..PAGE_SIZE * p + PAGE_SIZE])
  }

  /** The first page from p on that holds a type, or PAGES. */
  function FirstOf(m: Memory, kind: Byte, p: nat): (q: nat)
    requires p <= PAGES
    ensures p <= q <= PAGES
    ensures q < PAGES ==> TypeAt(m, q) == kind
    ensures forall k :: p <= k < q ==> TypeAt(m, k) != kind
    decreases PAGES - p
  {
    if p == PAGES || TypeAt(m, p) == kind then p else FirstOf(m, kind, p + 1)
  }

  /** At most one page for every type but the empty one. */
  ghost predicate OneEach(m: Memory) {
    forall p, q :: 0 <= p < q < PAGES && TypeAt(m, p) == TypeAt(m, q) ==> TypeAt(m, p) == CFG_EMPTY
  }

  /** What is stored, as a map. */
  ghost function Store(m: Memory): map<Byte, Page> {
    map kind: Byte | kind != CFG_EMPTY && FirstOf(m, kind, 0) < PAGES :: PageAt(m, FirstOf(m, kind, 0))
  }

  /** The store has a version of a type, beginning with some bytes. */
  ghost predicate Holds(store: map<Byte, Page>, kind: Byte, version: Byte, data: seq<Byte>) {
    && kind in store && store[kind].version == version
    && |data| <= |store[kind].payload| && store[kind].payload[..|data|] == data
  }

  /** A page written over: the bytes loaded change, the others stay. */
  function Written(m: Memory, p: nat, kind: Byte, version: Byte, data: seq<Byte>): Memory
    requires p < PAGES && |data| <= CHUNK
  {
    m[..PAGE_SIZE * p] + [kind, version] + data + m[PAGE_SIZE * p + 2 + |data|..]
  }

  lemma WrittenPages(m: Memory, p: nat, kind: Byte, version: Byte, data: seq<Byte>)
    requires p < PAGES && |data| <= CHUNK
    ensures var r := Written(m, p, kind, version, data);
            && TypeAt(r, p) == kind
            && PageAt(r, p) == Page(version, data + PageAt(m, p).payload[|data|..])
            && r[PAGES * PAGE_SIZE..] == m[PAGES * PAGE_SIZE..]
  {
    Overwriting(m, PAGE_SIZE * p, [kind, version] + data, PAGE_SIZE);
    var a, page := PAGE_SIZE * p, [kind, version] + data + m[PAGE_SIZE * p + 2 + |data|..PAGE_SIZE * p + PAGE_SIZE];
    var r := Written(m, p, kind, version, data);
    assert r == m[..a] + ([kind, version] + data) + m[a + 2 + |data|..];
    assert r[a..a + PAGE_SIZE] == page;
    assert r[a] == page[0] && r[a + 1] == page[1] && r[a + 2..a + PAGE_SIZE] == page[2..];
  }

  /** The bytes around a place written over. */
  lemma Overwriting(m: seq<Byte>, a: nat, b: seq<Byte>, size: nat)
    requires |b| <= size && a + size <= |m|
    ensures var r := m[..a] + b + m[a + |b|..]; r[a..a + size] == b + m[a + |b|..a + size] && r[a + size..] == m[a + size..]
  {
  }

  lemma WrittenOthers(m: Memory, p: nat, kind: Byte, version: Byte, data: seq<Byte>, q: nat)
    requires p < PAGES && |data| <= CHUNK && q < PAGES && q != p
    ensures var r := Written(m, p, kind, version, data); TypeAt(r, q) == TypeAt(m, q) && PageAt(r, q) == PageAt(m, q)
  {
    var r := Written(m, p, kind, version, data);
    if q < p {
      assert PAGE_SIZE * q + PAGE_SIZE <= PAGE_SIZE * p;
    } else {
      assert PAGE_SIZE * q >= PAGE_SIZE * p + PAGE_SIZE;
    }
    assert forall i :: PAGE_SIZE * q <= i < PAGE_SIZE * q + PAGE_SIZE ==> r[i] == m[i];
  }

  /** Where a field goes: to the page of its type, or to the first empty page, or nowhere (PAGES). */
  function Target(m: Memory, kind: Byte): (p: nat)
    ensures p <= PAGES
  {
    var p := FirstOf(m, kind, 0);
    if kind != CFG_EMPTY && p < PAGES then p else FirstOf(m, CFG_EMPTY, 0)
  }

  /** r is m with page t given to a type that no other page has. */
  ghost predicate Replaced(m: Memory, r: Memory, t: nat, kind: Byte) {
    && t < PAGES && TypeAt(r, t) == kind && (TypeAt(m, t) == kind || TypeAt(m, t) == CFG_EMPTY)
    && forall q: nat :: q < PAGES && q != t ==> TypeAt(r, q) == TypeAt(m, q) != kind && PageAt(r, q) == PageAt(m, q)
  }

  lemma WriteReplaces(m: Memory, kind: Byte, version: Byte, data: seq<Byte>)
    requires OneEach(m) && kind != CFG_EMPTY && Target(m, kind) < PAGES && |data| <= CHUNK
    ensures Replaced(m, Written(m, Target(m, kind), kind, version, data), Target(m, kind), kind)
  {
    hide PageAt, TypeAt, Written;
    var t := Target(m, kind);
    WrittenPages(m, t, kind, version, data);
    forall q: nat | q < PAGES && q != t
      ensures TypeAt(m, q) != kind
    {
    }
    forall q: nat | q < PAGES && q != t
      ensures var r := Written(m, t, kind, version, data); TypeAt(r, q) == TypeAt(m, q) && PageAt(r, q) == PageAt(m, q)
    {
      WrittenOthers(m, t, kind, version, data, q);
    }
  }

  lemma ReplacedFirst(m: Memory, r: Memory, t: nat, kind: Byte, other: Byte)
    requires Replaced(m, r, t, kind) && kind != CFG_EMPTY && other != CFG_EMPTY
    ensures FirstOf(r, kind, 0) == t
    ensures other != kind ==> FirstOf(r, other, 0) == FirstOf(m, other, 0) != t
  {
    hide PageAt, TypeAt;
    var a, b := FirstOf(r, other, 0), FirstOf(m, other, 0);
    if other != kind {
      assert a < PAGES ==> a != t;
      assert b < PAGES ==> b != t;
      if a < PAGES {
        assert TypeAt(m, a) == other;
      }
      if b < PAGES {
        assert TypeAt(r, b) == other;
      }
    }
  }

  lemma ReplacedStore(m: Memory, r: Memory, t: nat, kind: Byte)
    requires Replaced(m, r, t, kind) && kind != CFG_EMPTY
    ensures Store(r) == Store(m)[kind := PageAt(r, t)]
    ensures kind in Store(m) ==> Store(m)[kind] == PageAt(m, t)
  {
    hide PageAt, TypeAt, FirstOf;
    forall other: Byte
      ensures other in Store(r) <==> other == kind || other in Store(m)
      ensures other in Store(r) ==> Store(r)[other] == if other == kind then PageAt(r, t) else Store(m)[other]
    {
      if other != CFG_EMPTY {
        ReplacedPage(m, r, t, kind, other);
      }
    }
    if kind in Store(m) {
      OnlyPage(m, r, t, kind);
    }
  }

  lemma ReplacedPage(m: Memory, r: Memory, t: nat, kind: Byte, other: Byte)
    requires Replaced(m, r, t, kind) && kind != CFG_EMPTY && other != CFG_EMPTY
    ensures FirstOf(r, kind, 0) == t < PAGES
    ensures other != kind ==> FirstOf(r, other, 0) == FirstOf(m, other, 0)
    ensures other != kind && FirstOf(m, other, 0) < PAGES ==> PageAt(r, FirstOf(m, other, 0)) == PageAt(m, FirstOf(m, other, 0))
  {
    hide PageAt, TypeAt;
    ReplacedFirst(m, r, t, kind, other);
  }

  lemma OnlyPage(m: Memory, r: Memory, t: nat, kind: Byte)
    requires Replaced(m, r, t, kind) && FirstOf(m, kind, 0) < PAGES
    ensures FirstOf(m, kind, 0) == t
  {
    hide PageAt, TypeAt;
  }

  lemma ReplacedOneEach(m: Memory, r: Memory, t: nat, kind: Byte)
    requires Replaced(m, r, t, kind) && OneEach(m)
    ensures OneEach(r)
  {
    hide PageAt, TypeAt;
  }

  /** Writing to the target keeps one page a type and changes the store for this type only. */
  lemma WriteRefinesMap(m: Memory, kind: Byte, version: Byte, data: seq<Byte>)
    requires OneEach(m) && kind != CFG_EMPTY && Target(m, kind) < PAGES && |data| <= CHUNK
    ensures var r := Written(m, Target(m, kind), kind, version, data);
            && OneEach(r)
            && kind in Store(r) && Store(r) == Store(m)[kind := Store(r)[kind]]
            && Holds(Store(r), kind, version, data)
            && (kind in Store(m) ==> Store(r)[kind].payload[|data|..] == Store(m)[kind].payload[|data|..])
  {
    hide PageAt, TypeAt, Written, FirstOf, Store, Replaced, OneEach, Target;
    var t := Target(m, kind);
    var r := Written(m, t, kind, version, data);
    WriteReplaces(m, kind, version, data);
    ReplacedOneEach(m, r, t, kind);
    ReplacedStore(m, r, t, kind);
    WrittenPages(m, t, kind, version, data);
    assert (data + PageAt(m, t).payload[|data|..])[|data|..] == PageAt(m, t).payload[|data|..];
  }

  // ---- empty pages ----

  /** The number of empty pages from p on. */
  function Empties(m: Memory, p: nat): nat
    requires p <= PAGES
    decreases PAGES - p
  {
    if p == PAGES then 0 else (if TypeAt(m, p) == CFG_EMPTY then 1 else 0) + Empties(m, p + 1)
  }

  lemma {:induction false} SomeEmpty(m: Memory, p: nat)
    requires p <= PAGES
    ensures FirstOf(m, CFG_EMPTY, p) < PAGES <==> Empties(m, p) > 0
    decreases PAGES - p
  {
    if p < PAGES && TypeAt(m, p) != CFG_EMPTY {
      SomeEmpty(m, p + 1);
    }
  }

  /** A field has a page to go to if it has one already, or if one is empty. */
  lemma TargetMeans(m: Memory, kind: Byte)
    requires kind != CFG_EMPTY
    ensures Target(m, kind) < PAGES <==> kind in Store(m) || Empties(m, 0) > 0
    ensures Target(m, kind) < PAGES ==> (TypeAt(m, Target(m, kind)) == CFG_EMPTY <==> kind !in Store(m))
  {
    hide TypeAt, PageAt;
    SomeEmpty(m, 0);
  }

  lemma {:induction false} ReplacedEmpties(m: Memory, r: Memory, t: nat, kind: Byte, p: nat)
    requires Replaced(m, r, t, kind) && kind != CFG_EMPTY && p <= PAGES
    ensures Empties(r, p) == Empties(m, p) - if p <= t && TypeAt(m, t) == CFG_EMPTY then 1 else 0
    decreases PAGES - p
  {
    hide TypeAt, PageAt;
    if p < PAGES {
      ReplacedEmpties(m, r, t, kind, p + 1);
    }
  }

  /** Writing to the target takes an empty page exactly if the field had none. */
  lemma WriteTakes(m: Memory, kind: Byte, version: Byte, data: seq<Byte>)
    requires OneEach(m) && kind != CFG_EMPTY && Target(m, kind) < PAGES && |data| <= CHUNK
    ensures Empties(Written(m, Target(m, kind), kind, version, data), 0) == Empties(m, 0) - if kind in Store(m) then 0 else 1
  {
    hide TypeAt, PageAt, Written, Store, Target, Replaced, OneEach;
    WriteReplaces(m, kind, version, data);
    ReplacedEmpties(m, Written(m, Target(m, kind), kind, version, data), Target(m, kind), kind, 0);
    TargetMeans(m, kind);
  }

  // ---- C strings ----

  function Zeros(n: nat): (z: seq<Byte>)
    ensures |z| == n && forall i :: 0 <= i < n ==> z[i] == 0
  {
    seq(n, _ => 0)
  }

  /** What `strncpy` writes: n bytes, zeros after the end of the text. */
  function Copied(s: seq<Byte>, n: nat): (r: seq<Byte>)
    ensures |r| == n
  {
    if n == 0 then [] else if s == [] || s[0] == 0 then Zeros(n) else [s[0]] + Copied(s[1..], n - 1)
  }

  lemma {:induction false} TextOfPadded(t: seq<Byte>, rest: seq<Byte>)
    requires 0 !in t && (rest == [] || rest[0] == 0)
    ensures Text(t + rest) == t
    decreases |t|
  {
    if t != [] {
      assert (t + rest)[1..] == t[1..] + rest;
      TextOfPadded(t[1..], rest);
    } else {
      assert t + rest == rest;
    }
  }

  lemma {:induction false} CopiedPadded(t: seq<Byte>, n: nat, size: nat)
    requires 0 !in t && n <= size && |t| <= size
    ensures Copied(t + Zeros(size - |t|), n) == (t + Zeros(size - |t|))[..n]
    decreases n
  {
    var s := t + Zeros(size - |t|);
    if n > 0 && t != [] {
      assert s[1..] == t[1..] + Zeros(size - 1 - |t[1..]|);
      CopiedPadded(t[1..], n - 1, size - 1);
    }
  }

  lemma {:induction false} TextAt(s: seq<Byte>, n: nat)
    requires n <= |s| && (forall i :: 0 <= i < n ==> s[i] != 0) && (n < |s| ==> s[n] == 0)
    ensures Text(s) == s[..n]
    decreases n
  {
    if n > 0 {
      TextAt(s[1..], n - 1);
    }
  }

  lemma {:induction false} TextSplits(s: seq<Byte>) returns (n: nat)
    ensures n == |Text(s)| <= |s| && Text(s) == s[..n] && (n < |s| ==> s[n] == 0)
    decreases |s|
  {
    if s == [] || s[0] == 0 {
      n := 0;
    } else {
      var k := TextSplits(s[1..]);
      n := k + 1;
    }
  }

  // ---- the operations ----

  /** What a read of a type and version finds. */
  ghost predicate Found(store: map<Byte, Page>, kind: Byte, version: Byte) {
    kind in store && store[kind].version == version
  }

  lemma PageOfType(m: Memory, p: nat, kind: Byte)
    requires OneEach(m) && kind != CFG_EMPTY && p < PAGES && TypeAt(m, p) == kind
    ensures kind in Store(m) && Store(m)[kind] == PageAt(m, p)
  {
    assert FirstOf(m, kind, 0) == p;
  }

  /** Page p holds a version of a type. */
  predicate Matches(m: Memory, p: nat, kind: Byte, version: Byte)
    requires p < PAGES
  {
    TypeAt(m, p) == kind && PageAt(m, p).version == version
  }

  lemma NotFound(m: Memory, kind: Byte, version: Byte)
    requires kind != CFG_EMPTY && forall p: nat :: p < PAGES ==> !Matches(m, p, kind, version)
    ensures !Found(Store(m), kind, version)
  {
    hide PageAt, TypeAt;
    var p := FirstOf(m, kind, 0);
    assert p < PAGES ==> !Matches(m, p, kind, version);
  }

  lemma PayloadAt(m: Memory, p: nat, length: nat)
    requires p < PAGES && length <= CHUNK
    ensures PageAt(m, p).payload[..length] == m[PAGE_SIZE * p + 2..PAGE_SIZE * p + 2 + length]
  {
    Slice(m, PAGE_SIZE * p + 2, PAGE_SIZE * p + PAGE_SIZE, length);
  }

  lemma Slice(s: seq<Byte>, a: nat, b: nat, n: nat)
    requires a + n <= b <= |s|
    ensures s[a..b][..n] == s[a..a + n]
  {
  }

  /** `memcpy` to an array. */
  method Copy(dst: array<Byte>, offset: nat, bytes: seq<Byte>)
    requires offset + |bytes| <= dst.Length
    modifies dst
    ensures dst[..] == old(dst[..offset]) + bytes + old(dst[offset + |bytes|..])
  {
    for i := 0 to |bytes|
      invariant dst[..] == old(dst[..offset]) + bytes[..i] + old(dst[offset + i..])
    {
      ghost var before := dst[..];
      dst[offset + i] := bytes[i];
      assert dst[..] == before[offset + i := bytes[i]];
    }
  }

  /** `strncpy`. */
  method StrNCpy(dst: array<Byte>, src: seq<Byte>, n: nat)
    requires n <= dst.Length && (0 in src || n <= |src|)
    modifies dst
    ensures dst[..] == Copied(src, n) + old(dst[n..])
  {
    Copy(dst, 0, Copied(src, n));
  }

  /** `strcat`. */
  method StrCat(dst: array<Byte>, src: seq<Byte>)
    requires 0 in dst[..] && 0 in src && |Text(dst[..])| + |Text(src)| < dst.Length
    modifies dst
    ensures 0 in dst[..] && Text(dst[..]) == old(Text(dst[..])) + Text(src)
  {
    hide Text;
    ghost var head := Text(dst[..]);
    var end := Length(dst);
    ghost var rest := dst[end + |Text(src)| + 1..];
    Catenated(head, Text(src), rest);
    Copy(dst, end, Text(src) + [0]);
  }

  lemma Catenated(head: seq<Byte>, tail: seq<Byte>, rest: seq<Byte>)
    requires 0 !in head && 0 !in tail
    ensures var s := head + (tail + [0]) + rest; 0 in s && Text(s) == head + tail
  {
    var s := head + (tail + [0]) + rest;
    assert s == (head + tail) + ([0] + rest);
    assert s[|head| + |tail|] == 0;
    TextOfPadded(head + tail, [0] + rest);
  }

  /** `strlen`. */
  method Length(s: array<Byte>) returns (end: nat)
    requires 0 in s[..]
    ensures end < s.Length && Text(s[..]) == s[..end]
  {
    hide Text;
    ghost var n :| 0 <= n < s.Length && s[n] == 0;
    end := 0;
    while s[end] != 0
      invariant end <= n && forall i :: 0 <= i < end ==> s[i] != 0
      decreases n - end
    {
      end := end + 1;
    }
    TextAt(s[..], end);
  }

  class Nonvolatile {
    const mapped: array<Byte>

    ghost predicate Valid()
      reads this, mapped
    {
      mapped.Length == EEPROM_SIZE && OneEach(mapped[..])
    }

    ghost function Stored(): map<Byte, Page>
      requires Valid()
      reads this, mapped
    {
      Store(mapped[..])
    }

    /** The number of empty pages. */
    ghost function Room(): nat
      requires Valid()
      reads this, mapped
    {
      Empties(mapped[..], 0)
    }

    /** `config_read_eeprom`. */
    method ReadPage(data: array<Byte>, kind: Byte, version: Byte, length: nat) returns (found: bool)
      requires Valid() && kind != CFG_EMPTY && data != mapped && (length <= CHUNK ==> length <= data.Length)
      modifies data
      ensures Valid() && Stored() == old(Stored())
      ensures found == (length <= CHUNK && Found(Stored(), kind, version))
      ensures found ==> |Stored()[kind].payload| == CHUNK
      ensures found ==> data[..] == Stored()[kind].payload[..length] + old(data[length..])
      ensures !found ==> data[..] == old(data[..])
    {
      hide OneEach, Store, TypeAt, PageAt;
      if length > CHUNK {
        return false;
      }
      var address := SearchVersion(kind, version);
      if address == EEPROM_SIZE - PAGE_SIZE {
        NotFound(mapped[..], kind, version);
        return false;
      }
      PageOfType(mapped[..], address / PAGE_SIZE, kind);
      PayloadAt(mapped[..], address / PAGE_SIZE, length);
      Copy(data, 0, mapped[address + 2..address + 2 + length]);
      found := true;
    }

    /** Its loop. */
    method SearchVersion(kind: Byte, version: Byte) returns (address: nat)
      requires Valid()
      ensures address <= EEPROM_SIZE - PAGE_SIZE && address == PAGE_SIZE * (address / PAGE_SIZE)
      ensures address < EEPROM_SIZE - PAGE_SIZE ==> Matches(mapped[..], address / PAGE_SIZE, kind, version)
      ensures address == EEPROM_SIZE - PAGE_SIZE ==> forall p: nat :: p < PAGES ==> !Matches(mapped[..], p, kind, version)
    {
      hide OneEach;
      address := 0;
      ghost var p := 0;
      while address < EEPROM_SIZE - PAGE_SIZE && !(mapped[address] == kind && mapped[address + 1] == version)
        invariant address == PAGE_SIZE * p && p <= PAGES
        invariant forall q: nat :: q < p ==> !Matches(mapped[..], q, kind, version)
        decreases PAGES - p
      {
        address := address + PAGE_SIZE;
        p := p + 1;
      }
    }

    /** `config_write_eeprom`. */
    method WritePage(data: seq<Byte>, kind: Byte, version: Byte, length: nat) returns (written: bool)
      requires Valid() && kind != CFG_EMPTY && length <= |data|
      modifies mapped
      ensures Valid() && mapped[PAGES * PAGE_SIZE..] == old(mapped[PAGES * PAGE_SIZE..])
      ensures written == (length <= CHUNK && (kind in old(Stored()) || old(Room()) > 0))
      ensures Room() == old(Room()) - if written && kind !in old(Stored()) then 1 else 0
      ensures written ==> kind in Stored() && Stored() == old(Stored())[kind := Stored()[kind]]
                          && Holds(Stored(), kind, version, data[..length])
      ensures !written ==> mapped[..] == old(mapped[..])
    {
      hide OneEach, Store, TypeAt, PageAt, Target, Holds, Empties;
      if length > CHUNK {
        return false;
      }
      TargetMeans(mapped[..], kind);
      var address := Search(kind);
      if address == EEPROM_SIZE - PAGE_SIZE {
        return false;
      }
      ghost var m := mapped[..];
      Copy(mapped, address, [kind, version] + data[..length]);
      assert mapped[..] == Written(m, address / PAGE_SIZE, kind, version, data[..length]);
      WriteRefinesMap(m, kind, version, data[..length]);
      WriteTakes(m, kind, version, data[..length]);
      WrittenPages(m, address / PAGE_SIZE, kind, version, data[..length]);
      written := true;
    }

    /** Its loop. */
    method Search(kind: Byte) returns (address: nat)
      requires Valid() && kind != CFG_EMPTY
      ensures address == PAGE_SIZE * Target(mapped[..], kind) <= EEPROM_SIZE - PAGE_SIZE
    {
      hide OneEach;
      ghost var m := mapped[..];
      var empty: int := -1;
      address := 0;
      ghost var p := 0;
      while address < EEPROM_SIZE - PAGE_SIZE && (mapped[address] == CFG_EMPTY || mapped[address] != kind)
        invariant address == PAGE_SIZE * p && p <= PAGES
        invariant FirstOf(m, kind, 0) == FirstOf(m, kind, p)
        invariant empty == -1 ==> FirstOf(m, CFG_EMPTY, 0) == FirstOf(m, CFG_EMPTY, p)
        invariant empty != -1 ==> empty == PAGE_SIZE * FirstOf(m, CFG_EMPTY, 0) && FirstOf(m, CFG_EMPTY, 0) < PAGES
        decreases PAGES - p
      {
        if mapped[address] == CFG_EMPTY && empty == -1 {
          empty := address;
        }
        address := address + PAGE_SIZE;
        p := p + 1;
      }
      if address == EEPROM_SIZE - PAGE_SIZE && empty != -1 {
        address := empty;
      }
    }

    /** `config_read`. A name is put together from two pages, a password from three, and if the first page is full, what the
        destination held behind it comes in between; the destination has a zero there, and room for all of it. */
    method Read(data: array<Byte>, kind: Byte, version: Byte, length: nat) returns (found: bool)
      requires Valid() && kind != CFG_EMPTY && data != mapped && (length <= CHUNK ==> length <= data.Length)
      requires kind == CFG_WIFI_PASS ==> data.Length >= 2
      requires kind in {CFG_WIFI_SSID, CFG_WIFI_PASS} && Found(Stored(), kind, version) ==>
                 && CHUNK <= data.Length && |TextRead(Stored(), kind, version, data[CHUNK..])| < data.Length
                 && (|Part(Stored(), kind, version, CHUNK)| == CHUNK ==> 0 in data[CHUNK..])
      modifies data
      ensures Valid() && Stored() == old(Stored())
      ensures kind !in {CFG_WIFI_SSID, CFG_WIFI_PASS} ==> found == (length <= CHUNK && Found(Stored(), kind, version))
      ensures kind !in {CFG_WIFI_SSID, CFG_WIFI_PASS} && found ==> data[..] == Stored()[kind].payload[..length] + old(data[length..])
      ensures kind in {CFG_WIFI_SSID, CFG_WIFI_PASS} ==> found == Found(Stored(), kind, version)
      ensures kind in {CFG_WIFI_SSID, CFG_WIFI_PASS} && found ==>
                0 in data[..] && Text(data[..]) == TextRead(Stored(), kind, version, old(data[CHUNK..]))
    {
      hide OneEach, Store, Text, Found, Copied, Part;
      if kind == CFG_WIFI_SSID {
        found := ReadFirst(data, kind, version);
        if found {
          Append(data, CFG_WIFI_SSID_SEC, version, CHUNK);
        }
      } else if kind == CFG_WIFI_PASS {
        Copy(data, 0, [0, 0]);
        assert CHUNK <= data.Length ==> data[CHUNK..] == old(data[CHUNK..]);
        found := ReadFirst(data, kind, version);
        if found {
          Append(data, CFG_WIFI_PASS_SEC, version, CHUNK);
          Append(data, CFG_WIFI_PASS_THIRD, version, 3);
        }
      } else {
        found := ReadPage(data, kind, version, length);
      }
    }

    /** The first page of a name or password, copied to the destination. */
    method ReadFirst(data: array<Byte>, kind: Byte, version: Byte) returns (found: bool)
      requires Valid() && kind != CFG_EMPTY && data != mapped
      requires Found(Stored(), kind, version) ==>
                 CHUNK <= data.Length && (|Part(Stored(), kind, version, CHUNK)| == CHUNK ==> 0 in data[CHUNK..])
      modifies data
      ensures Valid() && Stored() == old(Stored())
      ensures found == Found(Stored(), kind, version)
      ensures found ==> 0 in data[..]
      ensures found ==> Text(data[..]) == Part(Stored(), kind, version, CHUNK) + Behind(Stored(), kind, version, old(data[CHUNK..]))
    {
      hide OneEach, Store, Text, Copied;
      var page := new Byte[PAGE_SIZE](_ => 0);
      found := ReadPage(page, kind, version, CHUNK);
      if found {
        ghost var payload, rest := Stored()[kind].payload[..CHUNK], data[CHUNK..];
        assert page[..] == payload + page[CHUNK..];
        StrNCpy(data, page[..], CHUNK);
        assert payload == Stored()[kind].payload;
        TextOfCopied(payload, page[CHUNK..], rest);
      }
    }

    /** A further page, appended to the destination if there is one. */
    method Append(data: array<Byte>, kind: Byte, version: Byte, length: nat)
      requires Valid() && kind != CFG_EMPTY && data != mapped && length <= CHUNK
      requires 0 in data[..] && |Text(data[..])| + |Part(Stored(), kind, version, length)| < data.Length
      modifies data
      ensures Valid() && Stored() == old(Stored())
      ensures 0 in data[..] && Text(data[..]) == old(Text(data[..])) + Part(Stored(), kind, version, length)
    {
      hide OneEach, Store, Text;
      var page := new Byte[PAGE_SIZE](_ => 0);
      var found := ReadPage(page, kind, version, length);
      assert page[PAGE_SIZE - 1] == 0;
      ghost var rest := page[length..];
      assert rest[0] == 0;
      if found {
        TextOfCut(Stored()[kind].payload[..length], rest);
      } else {
        TextOfPadded([], page[..]);
        assert [] + page[..] == page[..];
      }
      StrCat(data, page[..]);
    }

    /** `config_write`. Names longer than a page go to two pages, longer passwords to three. */
    method Write(data: seq<Byte>, kind: Byte, version: Byte) returns (written: bool)
      requires Valid() && kind != CFG_EMPTY
      requires kind == CFG_WIFI_SSID ==> |data| <= CHUNK + PAGE_SIZE
      requires kind == CFG_WIFI_PASS ==> |data| <= CHUNK || 2 * CHUNK <= |data| <= 2 * CHUNK + PAGE_SIZE
      modifies mapped
      ensures Valid() && mapped[PAGES * PAGE_SIZE..] == old(mapped[PAGES * PAGE_SIZE..])
      ensures OthersStay(old(Stored()), Stored(), Fields(kind, |data|))
      ensures written ==> Spread(Stored(), kind, version, data)
      ensures written == (PartsFit(kind, |data|) && Missing(old(Stored()), Fields(kind, |data|)) <= old(Room()))
      ensures written ==> Room() == old(Room()) - Missing(old(Stored()), Fields(kind, |data|))
    {
      hide OneEach, Store, Copied, Empties;
      if kind == CFG_WIFI_SSID && |data| > CHUNK {
        written := WriteTwo(data, version);
      } else if kind == CFG_WIFI_PASS && |data| > CHUNK {
        written := WriteThree(data, version);
      } else {
        written := WritePage(data, kind, version, |data|);
        MissingOne(old(Stored()), kind);
        assert data[..|data|] == data;
      }
    }

    /** A name, to two pages. */
    method WriteTwo(data: seq<Byte>, version: Byte) returns (written: bool)
      requires Valid() && CHUNK < |data| <= CHUNK + PAGE_SIZE
      modifies mapped
      ensures Valid() && mapped[PAGES * PAGE_SIZE..] == old(mapped[PAGES * PAGE_SIZE..])
      ensures OthersStay(old(Stored()), Stored(), [CFG_WIFI_SSID, CFG_WIFI_SSID_SEC])
      ensures written ==> Spread(Stored(), CFG_WIFI_SSID, version, data)
      ensures var missing := Missing(old(Stored()), [CFG_WIFI_SSID, CFG_WIFI_SSID_SEC]);
              && written == (|data| <= 2 * CHUNK && missing <= old(Room()))
              && (written ==> Room() == old(Room()) - missing)
    {
      hide OneEach, Store, Copied, Empties, Missing;
      MissingTwo(Stored(), CFG_WIFI_SSID, CFG_WIFI_SSID_SEC);
      written := WritePage(Copied(data, CHUNK), CFG_WIFI_SSID, version, CHUNK);
      if written {
        written := WritePage(Copied(data[CHUNK..], |data| - CHUNK), CFG_WIFI_SSID_SEC, version, |data| - CHUNK);
      }
    }

    /** A password, to three pages. */
    method WriteThree(data: seq<Byte>, version: Byte) returns (written: bool)
      requires Valid() && 2 * CHUNK <= |data| <= 2 * CHUNK + PAGE_SIZE
      modifies mapped
      ensures Valid() && mapped[PAGES * PAGE_SIZE..] == old(mapped[PAGES * PAGE_SIZE..])
      ensures OthersStay(old(Stored()), Stored(), [CFG_WIFI_PASS, CFG_WIFI_PASS_SEC, CFG_WIFI_PASS_THIRD])
      ensures written ==> Spread(Stored(), CFG_WIFI_PASS, version, data)
      ensures var missing := Missing(old(Stored()), [CFG_WIFI_PASS, CFG_WIFI_PASS_SEC, CFG_WIFI_PASS_THIRD]);
              && written == (|data| <= 3 * CHUNK && missing <= old(Room()))
              && (written ==> Room() == old(Room()) - missing)
    {
      hide OneEach, Store, Copied, Empties, Missing;
      MissingThree(Stored(), CFG_WIFI_PASS, CFG_WIFI_PASS_SEC, CFG_WIFI_PASS_THIRD);
      written := WritePage(Copied(data, CHUNK), CFG_WIFI_PASS, version, CHUNK);
      if written {
        written := WritePage(Copied(data[CHUNK..], CHUNK), CFG_WIFI_PASS_SEC, version, CHUNK);
        if written {
          written := WritePage(Copied(data[2 * CHUNK..], |data| - 2 * CHUNK), CFG_WIFI_PASS_THIRD, version, |data| - 2 * CHUNK);
        }
      }
    }
  }

  ghost function Absent(store: map<Byte, Page>, kind: Byte): nat {
    if kind in store then 0 else 1
  }

  lemma MissingOne(store: map<Byte, Page>, a: Byte)
    ensures Missing(store, [a]) == Absent(store, a)
  {
    assert [a][1..] == [];
  }

  lemma MissingTwo(store: map<Byte, Page>, a: Byte, b: Byte)
    ensures Missing(store, [a, b]) == Absent(store, a) + Absent(store, b)
  {
    assert [a, b][1..] == [b];
    MissingOne(store, b);
  }

  lemma MissingThree(store: map<Byte, Page>, a: Byte, b: Byte, c: Byte)
    ensures Missing(store, [a, b, c]) == Absent(store, a) + Absent(store, b) + Absent(store, c)
  {
    assert [a, b, c][1..] == [b, c];
    MissingTwo(store, b, c);
  }

  /** The types a field of some length takes. */
  function Fields(kind: Byte, length: nat): seq<Byte> {
    if kind == CFG_WIFI_SSID && length > CHUNK then [kind, CFG_WIFI_SSID_SEC]
    else if kind == CFG_WIFI_PASS && length > CHUNK then [kind, CFG_WIFI_PASS_SEC, CFG_WIFI_PASS_THIRD]
    else [kind]
  }

  /** The last page of a field has room for the rest of it. */
  predicate PartsFit(kind: Byte, length: nat) {
    length <= |Fields(kind, length)| * CHUNK
  }

  /** How many of these types have no page yet. */
  ghost function Missing(store: map<Byte, Page>, kinds: seq<Byte>): nat {
    if kinds == [] then 0 else Absent(store, kinds[0]) + Missing(store, kinds[1..])
  }

  ghost predicate OthersStay(a: map<Byte, Page>, b: map<Byte, Page>, kinds: seq<Byte>) {
    forall k: Byte :: k !in kinds ==> (k in a <==> k in b) && (k in a ==> a[k] == b[k])
  }

  /** The field is stored, over its pages if it needs several. */
  ghost predicate Spread(store: map<Byte, Page>, kind: Byte, version: Byte, data: seq<Byte>) {
    if kind == CFG_WIFI_SSID && |data| > CHUNK then
      && Holds(store, kind, version, Copied(data, CHUNK))
      && Holds(store, CFG_WIFI_SSID_SEC, version, Copied(data[CHUNK..], |data| - CHUNK))
    else if kind == CFG_WIFI_PASS && |data| > CHUNK then
      && |data| >= 2 * CHUNK
      && Holds(store, kind, version, Copied(data, CHUNK))
      && Holds(store, CFG_WIFI_PASS_SEC, version, Copied(data[CHUNK..], CHUNK))
      && Holds(store, CFG_WIFI_PASS_THIRD, version, Copied(data[2 * CHUNK..], |data| - 2 * CHUNK))
    else Holds(store, kind, version, data)
  }

  /** The text in the first bytes of a page, empty if the page is not there. */
  ghost function Part(store: map<Byte, Page>, kind: Byte, version: Byte, length: nat): seq<Byte> {
    if Found(store, kind, version) && length <= |store[kind].payload| then Text(store[kind].payload[..length]) else []
  }

  /** A name or password as it is stored. */
  ghost function TextStored(store: map<Byte, Page>, kind: Byte, version: Byte): seq<Byte> {
    if kind == CFG_WIFI_SSID then Part(store, kind, version, CHUNK) + Part(store, CFG_WIFI_SSID_SEC, version, CHUNK)
    else Part(store, kind, version, CHUNK) + Part(store, CFG_WIFI_PASS_SEC, version, CHUNK) + Part(store, CFG_WIFI_PASS_THIRD, version, 3)
  }

  /** What is read in between: the text the destination held behind a first page that is full. */
  ghost function Behind(store: map<Byte, Page>, kind: Byte, version: Byte, rest: seq<Byte>): seq<Byte> {
    if |Part(store, kind, version, CHUNK)| == CHUNK then Text(rest) else []
  }

  /** A name or password as it is read into a destination with these bytes from byte 30 on. */
  ghost function TextRead(store: map<Byte, Page>, kind: Byte, version: Byte, rest: seq<Byte>): seq<Byte> {
    Part(store, kind, version, CHUNK) + Behind(store, kind, version, rest)
    + Part(store, if kind == CFG_WIFI_SSID then CFG_WIFI_SSID_SEC else CFG_WIFI_PASS_SEC, version, CHUNK)
    + if kind == CFG_WIFI_SSID then [] else Part(store, CFG_WIFI_PASS_THIRD, version, 3)
  }

  /** What is read is what is stored if and only if the first page is not full, or the destination has a zero behind it. */
  lemma ReadsStoredExactly(store: map<Byte, Page>, kind: Byte, version: Byte, rest: seq<Byte>)
    requires |Part(store, kind, version, CHUNK)| == CHUNK ==> 0 in rest
    ensures TextRead(store, kind, version, rest) == TextStored(store, kind, version)
            <==> |Part(store, kind, version, CHUNK)| < CHUNK || rest[0] == 0
    ensures |TextRead(store, kind, version, rest)|
            == |TextStored(store, kind, version)| + |Behind(store, kind, version, rest)|
  {
    hide Part;
    PartFits(store, kind, version);
    var a, b := Part(store, kind, version, CHUNK), Behind(store, kind, version, rest);
    assert b == [] ==> a + b == a;
    assert kind == CFG_WIFI_SSID ==> TextStored(store, kind, version) + [] == TextStored(store, kind, version);
    assert |Text(rest)| == 0 <==> rest == [] || rest[0] == 0;
  }

  lemma PartFits(store: map<Byte, Page>, kind: Byte, version: Byte)
    ensures |Part(store, kind, version, CHUNK)| <= CHUNK
  {
  }

  /** Copied to a destination, the first bytes keep their text, and unless it ends among them, that of the bytes behind follows. */
  lemma {:induction false} TextOfCopied(s: seq<Byte>, more: seq<Byte>, rest: seq<Byte>)
    requires |Text(s)| == |s| ==> 0 in rest
    ensures var r := Copied(s + more, |s|) + rest; 0 in r && Text(r) == Text(s) + if |Text(s)| == |s| then Text(rest) else []
    decreases |s|
  {
    hide Text, Copied;
    EmptyTexts(s, more, rest);
    if s != [] && s[0] != 0 {
      var x, tail := s[0], s[1..];
      assert s == [x] + tail && s + more == [x] + (tail + more);
      TextNext(x, tail);
      TextOfCopied(tail, more, rest);
      CopiedNext(x, tail + more, |tail|);
      TextNext(x, Copied(tail + more, |tail|) + rest);
      assert Copied(s + more, |s|) + rest == [x] + (Copied(tail + more, |tail|) + rest);
      assert [x] + (Text(tail) + Text(rest)) == [x] + Text(tail) + Text(rest);
    }
  }

  lemma EmptyTexts(s: seq<Byte>, more: seq<Byte>, rest: seq<Byte>)
    ensures s == [] ==> Text(s) == [] && Copied(s + more, |s|) + rest == rest && [] + Text(rest) == Text(rest)
    ensures s != [] && s[0] == 0 ==> Text(s) == [] && (Copied(s + more, |s|) + rest)[0] == 0 && Text(Copied(s + more, |s|) + rest) == []
  {
    assert s != [] ==> (s + more)[0] == s[0] && (Copied(s + more, |s|) + rest)[0] == Copied(s + more, |s|)[0];
  }

  lemma TextNext(x: Byte, s: seq<Byte>)
    requires x != 0
    ensures Text([x] + s) == [x] + Text(s)
  {
    assert ([x] + s)[1..] == s;
  }

  lemma CopiedNext(x: Byte, s: seq<Byte>, n: nat)
    requires x != 0
    ensures Copied([x] + s, n + 1) == [x] + Copied(s, n)
  {
    assert ([x] + s)[1..] == s;
  }

  lemma {:induction false} TextOfCut(s: seq<Byte>, rest: seq<Byte>)
    requires rest != [] && rest[0] == 0
    ensures Text(s + rest) == Text(s)
    decreases |s|
  {
    if s != [] && s[0] != 0 {
      assert (s + rest)[1..] == s[1..] + rest;
      TextOfCut(s[1..], rest);
    }
  }

  // ---- names and passwords ----

  lemma HoldsPart(store: map<Byte, Page>, kind: Byte, version: Byte, data: seq<Byte>, length: nat)
    requires Holds(store, kind, version, data) && |data| <= |store[kind].payload| && length <= |store[kind].payload|
    requires 0 in data[..if |data| < length then |data| else length] || |data| >= length
    ensures Part(store, kind, version, length) == Text(data[..if |data| < length then |data| else length])
  {
    var n := if |data| < length then |data| else length;
    var s := store[kind].payload[..length];
    assert s[..n] == data[..n] && s == data[..n] + s[n..];
    TextOfPrefix(data[..n], s[n..]);
  }

  lemma {:induction false} TextOfPrefix(s: seq<Byte>, rest: seq<Byte>)
    requires 0 in s || rest == []
    ensures Text(s + rest) == Text(s)
    decreases |s|
  {
    if rest == [] {
      assert s + rest == s;
    } else if s[0] != 0 {
      assert (s + rest)[1..] == s[1..] + rest;
      TextOfPrefix(s[1..], rest);
    }
  }

  /** A text with zeros after it, cut in two. */
  lemma PaddedCut(t: seq<Byte>, size: nat, n: nat)
    requires 0 !in t && |t| <= size && n <= size
    ensures var s, k := t + Zeros(size - |t|), if |t| < n then |t| else n;
            && Copied(s, n) == s[..n] && Text(s[..n]) == t[..k]
            && s[n..] == t[k..] + Zeros(size - n - |t[k..]|)
  {
    var s, k := t + Zeros(size - |t|), if |t| < n then |t| else n;
    CopiedPadded(t, n, size);
    assert s[..n] == t[..k] + Zeros(n - k);
    TextOfPadded(t[..k], Zeros(n - k));
  }

  /** A name of up to 32 bytes in its zero-padded array comes back out of its two pages, whatever the second page held behind
      its three bytes. */
  lemma NameRoundTrip(store: map<Byte, Page>, version: Byte, name: seq<Byte>)
    requires 0 !in name && |name| <= 32 && forall k :: k in store ==> |store[k].payload| == CHUNK
    requires Spread(store, CFG_WIFI_SSID, version, name + Zeros(33 - |name|))
    ensures Found(store, CFG_WIFI_SSID, version) && TextStored(store, CFG_WIFI_SSID, version) == name
    ensures |Part(store, CFG_WIFI_SSID, version, CHUNK)| == if |name| < CHUNK then |name| else CHUNK
  {
    hide Text, Copied;
    var data := name + Zeros(33 - |name|);
    var k := if |name| < CHUNK then |name| else CHUNK;
    PaddedCut(name, 33, CHUNK);
    PaddedCut(name[k..], 3, 3);
    HoldsPart(store, CFG_WIFI_SSID, version, data[..CHUNK], CHUNK);
    assert data[CHUNK..][2] == data[32] == 0;
    assert data[CHUNK..][..3] == data[CHUNK..];
    HoldsPart(store, CFG_WIFI_SSID_SEC, version, data[CHUNK..], CHUNK);
    assert data[..CHUNK][..CHUNK] == data[..CHUNK];
    assert name[..k] + name[k..] == name;
    assert name[k..][..|name[k..]|] == name[k..];
  }

  lemma Cuts(s: seq<Byte>, n: nat, k: nat)
    requires n + k <= |s|
    ensures s[n..][..k] == s[n..n + k] && s[n..][k..] == s[n + k..]
  {
  }

  /** The second and the third part of a password in what is left of its zero-padded array. */
  lemma TailParts(rest: seq<Byte>) returns (b: seq<Byte>, c: seq<Byte>)
    requires 0 !in rest && |rest| <= 33
    ensures var s := rest + Zeros(34 - |rest|);
            && Copied(s, CHUNK) == s[..CHUNK] && Text(s[..CHUNK]) == b
            && Copied(s[CHUNK..], 4) == s[CHUNK..] && Text(s[CHUNK..][..3]) == c
    ensures b + c == rest
  {
    hide Text, Copied, Zeros;
    var s := rest + Zeros(34 - |rest|);
    var k := if |rest| < CHUNK then |rest| else CHUNK;
    b, c := rest[..k], rest[k..];
    PaddedCut(rest, 34, CHUNK);
    PaddedCut(c, 4, 4);
    PaddedCut(c, 4, 3);
    assert s[CHUNK..] == c + Zeros(4 - |c|) && s[CHUNK..][..4] == s[CHUNK..] && c[..|c|] == c;
  }

  /** The three parts of a password in its zero-padded array. */
  lemma PasswordParts(password: seq<Byte>) returns (a: seq<Byte>, b: seq<Byte>, c: seq<Byte>)
    requires 0 !in password && |password| <= 63
    ensures var data := password + Zeros(64 - |password|);
            && Copied(data, CHUNK) == data[..CHUNK] && Text(data[..CHUNK]) == a
            && Copied(data[CHUNK..], CHUNK) == data[CHUNK..2 * CHUNK] && Text(data[CHUNK..2 * CHUNK]) == b
            && Copied(data[2 * CHUNK..], 4) == data[2 * CHUNK..] && Text(data[2 * CHUNK..][..3]) == c
    ensures a + b + c == password && |a| == if |password| < CHUNK then |password| else CHUNK
  {
    hide Text, Copied, Zeros;
    var data := password + Zeros(64 - |password|);
    var k := if |password| < CHUNK then |password| else CHUNK;
    a := password[..k];
    b, c := TailParts(password[k..]);
    PaddedCut(password, 64, CHUNK);
    Cuts(data, CHUNK, CHUNK);
    assert a + (b + c) == password;
  }

  /** A password of up to 63 bytes comes back out of its three pages. */
  lemma PasswordRoundTrip(store: map<Byte, Page>, version: Byte, password: seq<Byte>)
    requires 0 !in password && |password| <= 63 && forall k :: k in store ==> |store[k].payload| == CHUNK
    requires Spread(store, CFG_WIFI_PASS, version, password + Zeros(64 - |password|))
    ensures Found(store, CFG_WIFI_PASS, version) && TextStored(store, CFG_WIFI_PASS, version) == password
    ensures |Part(store, CFG_WIFI_PASS, version, CHUNK)| == if |password| < CHUNK then |password| else CHUNK
  {
    hide Text, Copied, Part;
    var data := password + Zeros(64 - |password|);
    var a, b, c := PasswordParts(password);
    HoldsPart(store, CFG_WIFI_PASS, version, data[..CHUNK], CHUNK);
    HoldsPart(store, CFG_WIFI_PASS_SEC, version, data[CHUNK..2 * CHUNK], CHUNK);
    HoldsPart(store, CFG_WIFI_PASS_THIRD, version, data[2 * CHUNK..], 3);
    assert data[..CHUNK][..CHUNK] == data[..CHUNK] && data[CHUNK..2 * CHUNK][..CHUNK] == data[CHUNK..2 * CHUNK];
  }

  datatype Field = Field(kind: Byte, version: Byte, data: seq<Byte>)

  /** Lengths for which the source knows what it writes. */
  predicate Writable(field: Field) {
    && field.kind != CFG_EMPTY
    && (field.kind == CFG_WIFI_SSID ==> |field.data| <= CHUNK + PAGE_SIZE)
    && (field.kind == CFG_WIFI_PASS ==> |field.data| <= CHUNK || 2 * CHUNK <= |field.data| <= 2 * CHUNK + PAGE_SIZE)
  }

  /** Other fields written one after the other. Whether they fit or not, fields that are not among theirs stay. */
  method WriteAll(store: Nonvolatile, others: seq<Field>, ghost kept: seq<Byte>)
    requires store.Valid()
    requires forall i :: 0 <= i < |others| ==> Writable(others[i]) && Apart(Fields(others[i].kind, |others[i].data|), kept)
    modifies store.mapped
    ensures store.Valid() && SameFields(old(store.Stored()), store.Stored(), kept)
  {
    hide OneEach, Apart, SameFields;
    ghost var stored := store.Stored();
    assert SameFields(stored, stored, kept) by { SameFieldsItself(stored, kept); }
    for i := 0 to |others|
      invariant store.Valid() && SameFields(stored, store.Stored(), kept)
    {
      ghost var before := store.Stored();
      var _ := store.Write(others[i].data, others[i].kind, others[i].version);
      SameFieldsStep(stored, before, store.Stored(), Fields(others[i].kind, |others[i].data|), kept);
    }
  }

  predicate Apart(kinds: seq<Byte>, others: seq<Byte>) {
    forall k :: k in kinds ==> k !in others
  }

  ghost predicate SameFields(a: map<Byte, Page>, b: map<Byte, Page>, kinds: seq<Byte>) {
    forall k :: k in kinds ==> (k in a <==> k in b) && (k in a ==> a[k] == b[k])
  }

  lemma SameFieldsItself(a: map<Byte, Page>, kinds: seq<Byte>)
    ensures SameFields(a, a, kinds)
  {
  }

  lemma SameFieldsStep(a: map<Byte, Page>, b: map<Byte, Page>, c: map<Byte, Page>, written: seq<Byte>, kinds: seq<Byte>)
    requires SameFields(a, b, kinds) && OthersStay(b, c, written) && Apart(written, kinds)
    ensures SameFields(a, c, kinds)
  {
  }

  const NAME_FIELDS: seq<Byte> := [CFG_WIFI_SSID, CFG_WIFI_SSID_SEC]
  const PASSWORD_FIELDS: seq<Byte> := [CFG_WIFI_PASS, CFG_WIFI_PASS_SEC, CFG_WIFI_PASS_THIRD]

  /** A name written, then any other fields, passwords included, then the name read into an array of 33 bytes: reading succeeds
      exactly if there was room for its two pages when it was written, whatever became of the others, and what is read is the
      name exactly if it does not fill its first page or the array has a zero behind that. */
  method NameSurvives(store: Nonvolatile, name: seq<Byte>, version: Byte, others: seq<Field>, data: array<Byte>) returns (ok: bool)
    requires store.Valid() && data != store.mapped && data.Length == 33
    requires |name| >= CHUNK ==> 0 in data[CHUNK..] && |name| + |Text(data[CHUNK..])| < 33
    requires 0 !in name && |name| <= 32
    requires forall i :: 0 <= i < |others| ==> Writable(others[i]) && others[i].kind !in NAME_FIELDS
    modifies store.mapped, data
    ensures store.Valid()
    ensures ok == (Missing(old(store.Stored()), NAME_FIELDS) <= old(store.Room()))
    ensures ok ==> (Text(data[..]) == name <==> |name| < CHUNK || old(data[CHUNK]) == 0)
  {
    hide OneEach, Text, Copied, Part, Missing, Spread, TextStored, TextRead, SameFields, Empties;
    ok := store.Write(name + Zeros(33 - |name|), CFG_WIFI_SSID, version);
    if ok {
      ghost var stored := store.Stored();
      NamesApart(others);
      WriteAll(store, others, NAME_FIELDS);
      NameSpreadSame(stored, store.Stored(), version, name + Zeros(33 - |name|));
      StorePayloads(store.mapped[..]);
      NameRoundTrip(store.Stored(), version, name);
      ReadsStoredExactly(store.Stored(), CFG_WIFI_SSID, version, data[CHUNK..]);
      ok := store.Read(data, CFG_WIFI_SSID, version, 33);
    }
  }

  lemma NamesApart(others: seq<Field>)
    requires forall i :: 0 <= i < |others| ==> others[i].kind !in NAME_FIELDS
    ensures forall i :: 0 <= i < |others| ==> Apart(Fields(others[i].kind, |others[i].data|), NAME_FIELDS)
  {
  }

  lemma NameSpreadSame(a: map<Byte, Page>, b: map<Byte, Page>, version: Byte, data: seq<Byte>)
    requires SameFields(a, b, NAME_FIELDS) && Spread(a, CFG_WIFI_SSID, version, data)
    ensures Spread(b, CFG_WIFI_SSID, version, data)
  {
    hide Copied;
    assert CFG_WIFI_SSID in NAME_FIELDS && CFG_WIFI_SSID_SEC in NAME_FIELDS;
  }

  /** The same for a password, its three pages and an array of 64 bytes. */
  method PasswordSurvives(store: Nonvolatile, password: seq<Byte>, version: Byte, others: seq<Field>, data: array<Byte>)
    returns (ok: bool)
    requires store.Valid() && data != store.mapped && data.Length == 64
    requires |password| >= CHUNK ==> 0 in data[CHUNK..] && |password| + |Text(data[CHUNK..])| < 64
    requires 0 !in password && |password| <= 63
    requires forall i :: 0 <= i < |others| ==> Writable(others[i]) && others[i].kind !in PASSWORD_FIELDS
    modifies store.mapped, data
    ensures store.Valid()
    ensures ok == (Missing(old(store.Stored()), PASSWORD_FIELDS) <= old(store.Room()))
    ensures ok ==> (Text(data[..]) == password <==> |password| < CHUNK || old(data[CHUNK]) == 0)
  {
    hide OneEach, Text, Copied, Part, Missing, Spread, TextStored, TextRead, SameFields, Empties;
    ok := store.Write(password + Zeros(64 - |password|), CFG_WIFI_PASS, version);
    if ok {
      ghost var stored := store.Stored();
      PasswordsApart(others);
      WriteAll(store, others, PASSWORD_FIELDS);
      PasswordSpreadSame(stored, store.Stored(), version, password + Zeros(64 - |password|));
      StorePayloads(store.mapped[..]);
      PasswordRoundTrip(store.Stored(), version, password);
      ReadsStoredExactly(store.Stored(), CFG_WIFI_PASS, version, data[CHUNK..]);
      ok := store.Read(data, CFG_WIFI_PASS, version, 64);
    }
  }

  lemma PasswordsApart(others: seq<Field>)
    requires forall i :: 0 <= i < |others| ==> others[i].kind !in PASSWORD_FIELDS
    ensures forall i :: 0 <= i < |others| ==> Apart(Fields(others[i].kind, |others[i].data|), PASSWORD_FIELDS)
  {
  }

  lemma PasswordSpreadSame(a: map<Byte, Page>, b: map<Byte, Page>, version: Byte, data: seq<Byte>)
    requires SameFields(a, b, PASSWORD_FIELDS) && Spread(a, CFG_WIFI_PASS, version, data)
    ensures Spread(b, CFG_WIFI_PASS, version, data)
  {
    hide Copied;
    assert CFG_WIFI_PASS in PASSWORD_FIELDS && CFG_WIFI_PASS_SEC in PASSWORD_FIELDS && CFG_WIFI_PASS_THIRD in PASSWORD_FIELDS;
  }

  lemma StorePayloads(m: Memory)
    ensures forall k :: k in Store(m) ==> |Store(m)[k].payload| == CHUNK
  {
  }
}
