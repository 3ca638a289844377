/** Alarm settings as text: printed by `append_alarms` of `protocol.c`, read back by the parser of the ALARM command in
    `command_parser.c`. A text is a C string without its terminating NUL. */
module AlarmText {
  import opened Basics
  import opened CircularBuffer
  import opened Inet
  import Readings

  const SEPARATOR := '|'

  type Int16 = x: int | -0x8000 <= x < 0x8000

  datatype Limit = Limit(enabled: bool, value: Int16)
  datatype Alarms = Alarms(low: Limit, high: Limit)

  // ---- printing ----

  /** The format %d. */
  function Signed(value: Int16): string {
    if value < 0 then "-" + Decimal(Magnitude(value)) else Decimal(value)
  }

  function Magnitude(value: Int16): nat {
    var x: int := value;
    if x < 0 then -x else x
  }

  function LimitText(limit: Limit): string {
    if limit.enabled then Signed(limit.value) else "OFF"
  }

  function Item(id: char, alarms: Alarms): string {
    [id] + ":" + LimitText(alarms.low) + "," + LimitText(alarms.high)
  }

  function Items(ids: seq<char>, alarms: seq<Alarms>): (items: seq<string>)
    requires |ids| == |alarms|
    ensures |items| == |ids| && forall i :: 0 <= i < |ids| ==> items[i] == Item(ids[i], alarms[i])
  {
    if ids == [] then [] else [Item(ids[0], alarms[0])] + Items(ids[1..], alarms[1..])
  }

  function Line(ids: seq<char>, alarms: seq<Alarms>): string
    requires |ids| == |alarms|
  {
    "ALARM " + Readings.Join(Items(ids, alarms)) + ";"
  }

  // ---- reading ----

  predicate HasPrefix(s: string, prefix: string) {
    |prefix| <= |s| && s[..|prefix|] == prefix
  }

  function From(s: string, i: nat): string {
    if i <= |s| then s[i..] else ""
  }

  /** The number a digit string begins with. */
  function Leading(s: string, value: nat): nat
    decreases |s|
  {
    if s != "" && IsDigit(s[0]) then Leading(s[1..], 10 * value + DigitValue(s[0])) else value
  }

  function Wrapped(x: int): Int16 {
    (x + 0x8000) % 0x1_0000 - 0x8000
  }

  /** `atoi` on 16 bits. */
  function Atoi(s: string): Int16
    decreases |s|
  {
    if s == "" then 0
    else if IsSpace(s[0]) then Atoi(s[1..])
    else if s[0] == '-' then Wrapped(0 - Leading(s[1..], 0) as int)
    else if s[0] == '+' then Wrapped(Leading(s[1..], 0))
    else Wrapped(Leading(s, 0))
  }

  /** A limit as read at the beginning of s; when it is off, the value is whatever the structure on the stack held. */
  function ReadLimit(s: string, stale: Int16): Limit {
    if HasPrefix(s, "OFF") then Limit(false, stale) else Limit(true, Atoi(s))
  }

  /** The position after the first comma, looked for in the first `size` characters; 0 if there is none. */
  function AfterComma(s: string, size: nat, i: nat): (p: nat)
    ensures p <= size || p == i + 1
    decreases size - i
  {
    if At(s, i) == ',' then i + 1
    else if i + 1 >= size then 0
    else AfterComma(s, size, i + 1)
  }

  /** `parse_alarm_argument_item`. */
  function ReadItem(s: string, size: nat, stale: Alarms): Option<(char, Alarms)> {
    var p := AfterComma(s, size, 0);
    if At(s, 1) != ':' || p == 0 then None
    else Some((At(s, 0), Alarms(ReadLimit(From(s, 2), stale.low.value), ReadLimit(From(s, p), stale.high.value))))
  }

  /** `find_argument_item`: the length of the first item with its separator. */
  function ItemLength(s: string): (n: nat)
    ensures n <= |s| && (s != "" ==> n > 0)
  {
    if s == "" then 0 else if s[0] == SEPARATOR then 1 else 1 + ItemLength(s[1..])
  }

  /** `get_index_of_sensor`. */
  function IndexOf(ids: seq<char>, id: char): (i: int)
    ensures -1 <= i < |ids| && (i >= 0 ==> ids[i] == id)
  {
    if ids == [] then -1
    else if ids[0] == id then 0
    else
      var i := IndexOf(ids[1..], id);
      if i < 0 then -1 else i + 1
  }

  /** The loop of `parse_alarm_argument`. The size of an item is passed as the position of its end. */
  function ReadFrom(ids: seq<char>, alarms: seq<Alarms>, s: string, start: nat, end: nat, stale: nat -> Alarms): Option<seq<Alarms>>
    requires |ids| == |alarms| && start <= end <= |s|
    decreases |s| - start
  {
    if start == end then Some(alarms)
    else
      match ReadItem(s[start..], end, stale(start))
      case None => None
      case Some((id, read)) =>
        var i := IndexOf(ids, id);
        ReadFrom(ids, if i >= 0 then alarms[i := read] else alarms, s, end, end + ItemLength(s[end..]), stale)
  }

  /** `parse_alarm_argument`, starting from the settings as they are. */
  function ReadAlarms(ids: seq<char>, current: seq<Alarms>, s: string, stale: nat -> Alarms): Option<seq<Alarms>>
    requires |ids| == |current|
  {
    ReadFrom(ids, current, s, 0, ItemLength(s), stale)
  }

  // ---- the command ----

  /** The command names in the order of the table. */
  const TOKENS: seq<string> := ["MAC", "NOW", "RELOAD", "HEARTBEAT", "RTC", "VERSION", "STATUS", "READINGS", "ID", "SIGNATURE", "URL",
                                "PORT", "SSID", "PASS", "AUTH", "MOVEMENT", "ATMO", "SYSTEM", "STATIC_IP", "STATIC_MASK",
                                "STATIC_GATEWAY", "STATIC_DNS", "ALARM", "SET", "LOCATION", "SSL", "TEMP_OFFSET", "HUMIDITY_OFFSET",
                                "PRESSURE_OFFSET", "OFFSET_FACTORY", "ACQUISITION"]

  datatype Command = Bad | Plain(token: string) | Alarm(alarms: seq<Alarms>) | Others(token: string)

  /** `parse_command` of a line with its terminator: the first name that begins it, is followed by the terminator or a space,
      and whose argument is valid. `valid` says so of the arguments of other commands. */
  function ReadCommand(tokens: seq<string>, ids: seq<char>, current: seq<Alarms>, line: string, stale: nat -> Alarms,
                       valid: (string, string) -> bool): Command
    requires |ids| == |current|
  {
    if tokens == [] || line == "" || line[|line| - 1] != ';' then Bad
    else
      var token, rest := tokens[0], tokens[1..];
      var next := At(line, |token|);
      if !HasPrefix(line, token) then ReadCommand(rest, ids, current, line, stale, valid)
      else if next == ';' then Plain(token)
      else if next != ' ' then ReadCommand(rest, ids, current, line, stale, valid)
      else
        var argument := line[|token| + 1..|line| - 1];
        if token != "ALARM" then
          if valid(token, argument) then Others(token) else ReadCommand(rest, ids, current, line, stale, valid)
        else
          match ReadAlarms(ids, current, argument, stale)
          case Some(alarms) => Alarm(alarms)
          case None => ReadCommand(rest, ids, current, line, stale, valid)
  }

  // ---- the round trip ----

  /** Sensor ids that do not collide with the punctuation. */
  predicate PlainId(id: char) {
    id != '|' && id != ',' && id != ';' && id != NUL
  }

  predicate Distinct(ids: seq<char>) {
    forall i, j :: 0 <= i < j < |ids| ==> ids[i] != ids[j]
  }

  /** The same switches, and the same values where they are on. */
  predicate SameLimit(a: Limit, b: Limit) {
    a.enabled == b.enabled && (a.enabled ==> a.value == b.value)
  }

  predicate SameAlarms(a: Alarms, b: Alarms) {
    SameLimit(a.low, b.low) && SameLimit(a.high, b.high)
  }

  lemma {:induction false} LeadingAppend(digits: string, c: char, rest: string, value: nat)
    requires (forall i :: 0 <= i < |digits| ==> IsDigit(digits[i])) && IsDigit(c) && (rest != "" ==> !IsDigit(rest[0]))
    ensures Leading(digits + [c] + rest, value) == 10 * Leading(digits, value) + DigitValue(c)
    decreases |digits|
  {
    var s := digits + [c] + rest;
    if digits == "" {
      assert s[1..] == rest;
    } else {
      assert s[1..] == digits[1..] + [c] + rest;
      LeadingAppend(digits[1..], c, rest, 10 * value + DigitValue(digits[0]));
    }
  }

  lemma {:induction false} LeadingOfDecimal(n: nat, rest: string)
    requires rest != "" ==> !IsDigit(rest[0])
    ensures Leading(Decimal(n) + rest, 0) == n
    decreases n
  {
    hide Leading;
    var c := Digit(n % 10);
    if n < 10 {
      DecimalDigit(c);
      assert [] + [c] + rest == Decimal(n) + rest;
      LeadingAppend("", c, rest, 0);
      LeadingNone();
    } else {
      LeadingOfDecimal(n / 10, "");
      assert Decimal(n / 10) + "" == Decimal(n / 10);
      LeadingAppend(Decimal(n / 10), c, rest, 0);
      assert Decimal(n / 10) + [c] + rest == Decimal(n) + rest;
    }
  }

  lemma LeadingNone()
    ensures Leading("", 0) == 0
  {
  }

  lemma {:induction false} AtoiOfSigned(value: Int16, rest: string)
    requires rest != "" ==> !IsDigit(rest[0])
    ensures Atoi(Signed(value) + rest) == value
  {
    hide Leading, Decimal, Atoi;
    var magnitude := Magnitude(value);
    LeadingOfDecimal(magnitude, rest);
    if value < 0 {
      assert "-" + Decimal(magnitude) + rest == "-" + (Decimal(magnitude) + rest);
      AtoiMinus(Decimal(magnitude) + rest);
    } else {
      AtoiDigit(Decimal(value) + rest);
    }
    WrappedInRange(value);
  }

  lemma WrappedInRange(value: Int16)
    ensures Wrapped(value) == value
  {
  }

  lemma AtoiMinus(s: string)
    ensures Atoi("-" + s) == Wrapped(0 - Leading(s, 0) as int)
  {
    hide Leading, Wrapped;
    assert ("-" + s)[1..] == s;
  }

  lemma AtoiDigit(s: string)
    requires s != "" && IsDigit(s[0])
    ensures Atoi(s) == Wrapped(Leading(s, 0))
  {
    hide Leading, Wrapped;
  }

  /** A printed limit has none of the separators, and begins with OFF only if it is off. */
  lemma LimitCharacters(limit: Limit)
    ensures forall i :: 0 <= i < |LimitText(limit)| ==> LimitText(limit)[i] !in {'|', ',', ';'}
    ensures LimitText(limit) != "" && (limit.enabled ==> LimitText(limit)[0] != 'O')
  {
    hide Decimal;
  }

  lemma LimitRead(limit: Limit, rest: string, stale: Int16)
    requires rest != "" ==> rest[0] == ',' || rest[0] == '|'
    ensures SameLimit(ReadLimit(LimitText(limit) + rest, stale), limit)
  {
    hide Atoi, Signed;
    LimitCharacters(limit);
    var s := LimitText(limit) + rest;
    assert s[0] == LimitText(limit)[0];
    if limit.enabled {
      AtoiOfSigned(limit.value, rest);
    } else {
      assert s[..3] == "OFF";
    }
  }

  lemma {:induction false} CommaAt(s: string, size: nat, i: nat, p: nat)
    requires i < p <= |s| && p <= size && s[p - 1] == ',' && forall k :: i <= k < p - 1 ==> s[k] != ','
    ensures AfterComma(s, size, i) == p
    decreases p - i
  {
    if i < p - 1 {
      CommaAt(s, size, i + 1, p);
    }
  }

  /** One printed item is read back, whatever follows it. */
  lemma ItemRead(id: char, alarms: Alarms, rest: string, size: nat, stale: Alarms)
    requires PlainId(id) && |Item(id, alarms)| <= size && (rest != "" ==> rest[0] == '|')
    ensures var r := ReadItem(Item(id, alarms) + rest, size, stale);
            r.Some? && r.value.0 == id && SameAlarms(r.value.1, alarms)
  {
    hide ReadLimit, LimitText;
    var low, high := LimitText(alarms.low), LimitText(alarms.high);
    var s := Item(id, alarms) + rest;
    LimitCharacters(alarms.low);
    LimitCharacters(alarms.high);
    var p := |low| + 3;
    ItemParts(id, low, high, rest);
    CommaAt(s, size, 0, p);
    LimitRead(alarms.low, "," + high + rest, stale.low.value);
    LimitRead(alarms.high, rest, stale.high.value);
  }

  lemma ItemParts(id: char, low: string, high: string, rest: string)
    requires id != ',' && forall i :: 0 <= i < |low| ==> low[i] != ','
    ensures var s := [id] + ":" + low + "," + high + rest;
            && s[0] == id && s[1] == ':' && s[2..] == low + ("," + high + rest)
            && s[|low| + 2] == ',' && s[|low| + 3..] == high + rest
            && forall k :: 0 <= k < |low| + 2 ==> s[k] != ','
  {
    var s := [id] + ":" + low + "," + high + rest;
    assert forall k :: 0 <= k < |low| ==> s[k + 2] == low[k];
  }

  lemma {:induction false} ItemLengthOf(item: string, rest: string)
    requires item != "" && (forall i :: 0 <= i < |item| ==> item[i] != '|') && (rest != "" ==> rest[0] == '|')
    ensures ItemLength(item + rest) == if rest == "" then |item| else |item| + 1
    decreases |item|
  {
    var s := item + rest;
    assert s[1..] == item[1..] + rest;
    if |item| > 1 {
      ItemLengthOf(item[1..], rest);
    } else {
      assert item[1..] + rest == rest;
    }
  }

  lemma {:induction false} IndexOfDistinct(ids: seq<char>, k: nat)
    requires Distinct(ids) && k < |ids|
    ensures IndexOf(ids, ids[k]) == k
  {
    if k > 0 {
      IndexOfDistinct(ids[1..], k - 1);
    }
  }

  predicate PlainIds(ids: seq<char>) {
    Distinct(ids) && forall i :: 0 <= i < |ids| ==> PlainId(ids[i])
  }

  /** What is left to read when the items from k on are. */
  function Tail(ids: seq<char>, target: seq<Alarms>, k: nat): string
    requires |ids| == |target| && k <= |ids|
  {
    Readings.Join(Items(ids, target)[k..])
  }

  lemma TailIs(ids: seq<char>, target: seq<Alarms>, k: nat)
    requires |ids| == |target| && k <= |ids|
    ensures k == |ids| ==> Tail(ids, target, k) == ""
    ensures k < |ids| ==> Tail(ids, target, k)
                          == Item(ids[k], target[k]) + (if k + 1 == |ids| then "" else "|" + Tail(ids, target, k + 1))
  {
    hide Item;
    var items := Items(ids, target);
    if k < |ids| {
      assert items[k..][0] == items[k] && items[k..][1..] == items[k + 1..];
      assert items[k] + Readings.SEPARATOR + Readings.Join(items[k + 1..]) == items[k] + ("|" + Readings.Join(items[k + 1..]));
    }
  }

  lemma ItemPlain(id: char, alarms: Alarms)
    requires PlainId(id)
    ensures Item(id, alarms) != "" && forall i :: 0 <= i < |Item(id, alarms)| ==> Item(id, alarms)[i] != '|'
  {
    hide LimitText;
    LimitCharacters(alarms.low);
    LimitCharacters(alarms.high);
  }

  lemma {:induction false} ReadsItems(ids: seq<char>, target: seq<Alarms>, alarms: seq<Alarms>, s: string, start: nat, k: nat,
                                      stale: nat -> Alarms)
    requires |ids| == |target| == |alarms| && PlainIds(ids) && k <= |ids| && start <= |s| && s[start..] == Tail(ids, target, k)
    requires forall i :: 0 <= i < k ==> SameAlarms(alarms[i], target[i])
    ensures var r := ReadFrom(ids, alarms, s, start, start + ItemLength(s[start..]), stale);
            r.Some? && |r.value| == |ids| && forall i :: 0 <= i < |ids| ==> SameAlarms(r.value[i], target[i])
    decreases |ids| - k
  {
    hide ReadItem, Item, ItemLength, SameAlarms, IndexOf, Tail, PlainId;
    TailIs(ids, target, k);
    if k < |ids| {
      var item := Item(ids[k], target[k]);
      var rest := if k + 1 == |ids| then "" else "|" + Tail(ids, target, k + 1);
      ItemPlain(ids[k], target[k]);
      ItemLengthOf(item, rest);
      var end := start + ItemLength(s[start..]);
      ItemRead(ids[k], target[k], rest, end, stale(start));
      IndexOfDistinct(ids, k);
      TailIs(ids, target, k + 1);
      assert s[end..] == s[start..][end - start..];
      assert s[end..] == Tail(ids, target, k + 1);
      var read := ReadItem(s[start..], end, stale(start)).value.1;
      ReadsItems(ids, target, alarms[k := read], s, end, k + 1, stale);
    } else {
      NothingLeft();
    }
  }

  lemma NothingLeft()
    ensures ItemLength("") == 0
  {
  }

  /** Does not begin like ALARM. */
  predicate Unlike(token: string) {
    token != "" && (token[0] != 'A' || |token| == 1 || token[1] != 'L')
  }

  /** Only the name ALARM begins an alarm line. */
  predicate OnlyAlarm(tokens: seq<string>) {
    forall i :: 0 <= i < |tokens| ==> tokens[i] == "ALARM" || Unlike(tokens[i])
  }

  lemma TokensOnlyAlarm()
    ensures OnlyAlarm(TOKENS) && |TOKENS| == 31 && TOKENS[22] == "ALARM"
  {
    forall i | 0 <= i < |TOKENS|
      ensures TOKENS[i] == "ALARM" || Unlike(TOKENS[i])
    {
      if i < 11 {
        assert TOKENS[i][0] in {'M', 'N', 'R', 'H', 'V', 'S', 'I', 'U'};
      }
    }
  }

  lemma {:induction false} FindsAlarm(tokens: seq<string>, ids: seq<char>, current: seq<Alarms>, line: string, stale: nat -> Alarms,
                                      valid: (string, string) -> bool)
    requires |ids| == |current| && HasPrefix(line, "ALARM ") && line[|line| - 1] == ';'
    requires OnlyAlarm(tokens) && "ALARM" in tokens
    requires |line| > 6 && ReadAlarms(ids, current, line[6..|line| - 1], stale).Some?
    ensures ReadCommand(tokens, ids, current, line, stale, valid) == Alarm(ReadAlarms(ids, current, line[6..|line| - 1], stale).value)
  {
    hide ReadAlarms;
    var token := tokens[0];
    if token != "ALARM" {
      assert line[..6][1] == line[1] == 'L' && line[..6][0] == line[0] == 'A';
      FindsAlarm(tokens[1..], ids, current, line, stale, valid);
    } else {
      assert line[..6] == "ALARM " && line[..5] == line[..6][..5];
    }
  }

  /** The printed line is read back as an ALARM command with the same switches for every sensor, and the same values wherever
      they are on, whatever the settings were before and whatever is on the stack. */
  lemma AlarmRoundTrip(ids: seq<char>, alarms: seq<Alarms>, current: seq<Alarms>, stale: nat -> Alarms,
                       valid: (string, string) -> bool)
    requires |ids| == |alarms| == |current| && PlainIds(ids)
    ensures var r := ReadCommand(TOKENS, ids, current, Line(ids, alarms), stale, valid);
            r.Alarm? && |r.alarms| == |ids| && forall i :: 0 <= i < |ids| ==> SameAlarms(r.alarms[i], alarms[i])
  {
    hide ReadFrom, SameAlarms, Items, PlainId, OnlyAlarm, ReadCommand, TOKENS;
    var line, argument := Line(ids, alarms), Readings.Join(Items(ids, alarms));
    assert line[..6] == "ALARM " && line[6..|line| - 1] == argument;
    assert argument[0..] == argument && Items(ids, alarms)[0..] == Items(ids, alarms);
    ReadsItems(ids, alarms, current, argument, 0, 0, stale);
    TokensOnlyAlarm();
    FindsAlarm(TOKENS, ids, current, line, stale, valid);
  }

  // ---- the source's loops ----

  /** `find_argument_item` from a position; its positions have 8 bits. */
  method FindArgumentItem(list: string, from: nat) returns (end: nat)
    requires from <= |list| < 0x100
    ensures end == ItemLength(list[from..])
  {
    var length := |list| - from;
    if length == 0 {
      return 0;
    }
    var end', separated := 0, false;
    assert list[from..] == list[from + end'..];
    while !separated && end' < length
      invariant end' <= length && (separated ==> end' > 0)
      invariant end' + (if separated then 0 else ItemLength(list[from + end'..])) == ItemLength(list[from..])
      decreases length - end', !separated
    {
      separated := list[from + end'] == SEPARATOR;
      assert list[from + end'..][1..] == list[from + end' + 1..];
      end' := end' + 1;
    }
    assert end' == length ==> list[from + end'..] == "";
    return end';
  }

  /** The search for the comma in `parse_alarm_argument_item`. */
  method FindComma(argument: string, size: nat) returns (found: bool, position: nat)
    ensures found == (AfterComma(argument, size, 0) != 0) && (found ==> position == AfterComma(argument, size, 0))
  {
    position := 0;
    while At(argument, position) != ','
      invariant AfterComma(argument, size, position) == AfterComma(argument, size, 0)
      decreases size - position
    {
      position := position + 1;
      if position >= size {
        return false, position;
      }
    }
    return true, position + 1;
  }

  /** `parse_alarm_argument_item`. */
  method ParseItem(argument: string, size: nat, stale: Alarms) returns (ok: bool, id: char, alarms: Alarms)
    ensures ok == ReadItem(argument, size, stale).Some?
    ensures ok ==> (id, alarms) == ReadItem(argument, size, stale).value
  {
    id, alarms := At(argument, 0), stale;
    if At(argument, 1) != ':' {
      return false, id, alarms;
    }
    var found, position := FindComma(argument, size);
    if !found {
      return false, id, alarms;
    }
    var low := ReadLimit(From(argument, 2), stale.low.value);
    var high := ReadLimit(From(argument, position), stale.high.value);
    return true, id, Alarms(low, high);
  }

  /** `parse_alarm_argument`. */
  method ParseAlarms(ids: seq<char>, current: seq<Alarms>, argument: string, stale: nat -> Alarms)
      returns (ok: bool, alarms: seq<Alarms>)
    requires |ids| == |current| && |argument| < 0x100
    ensures ok == ReadAlarms(ids, current, argument, stale).Some?
    ensures ok ==> alarms == ReadAlarms(ids, current, argument, stale).value
  {
    hide ReadItem, ItemLength, IndexOf;
    alarms := current;
    assert argument[0..] == argument;
    var start, end := 0, 0;
    end := FindArgumentItem(argument, 0);
    while start != end
      invariant start <= end <= |argument| && |alarms| == |ids| && (end == start ==> end == |argument|)
      invariant ReadFrom(ids, alarms, argument, start, end, stale) == ReadAlarms(ids, current, argument, stale)
      decreases |argument| - start
    {
      var parsed, id, read := ParseItem(argument[start..], end, stale(start));
      if !parsed {
        return false, alarms;
      }
      var i := IndexOf(ids, id);
      if i >= 0 {
        alarms := alarms[i := read];
      }
      start := end;
      var length := FindArgumentItem(argument, end);
      end := end + length;
    }
    ok := true;
  }

  lemma {:induction false} ItemsSerialized(ids: seq<char>, alarms: seq<Alarms>, k: nat)
    requires |ids| == |alarms| && k < |ids|
    ensures Readings.Serialized(Items(ids, alarms)[..k + 1])
            == Readings.Serialized(Items(ids, alarms)[..k]) + (Item(ids[k], alarms[k]) + "|")
  {
    hide Items, Item, Readings.Serialized;
    Readings.SerializedNext(Items(ids, alarms), k);
  }

  lemma {:induction false} LineIsEnded(ids: seq<char>, alarms: seq<Alarms>)
    requires |ids| == |alarms| > 0
    ensures Readings.Ended("ALARM " + Readings.Serialized(Items(ids, alarms))) == Line(ids, alarms)
  {
    hide Items;
    var items := Items(ids, alarms);
    Readings.SerializedIsJoined(items);
    Readings.EndedAppend("ALARM ", Readings.Serialized(items));
  }

  /** `append_alarms`: the whole line if there is room for it. */
  method AppendAlarms(ids: seq<char>, alarms: seq<Alarms>, buffer: Ring<char>) returns (ok: bool)
    requires |ids| == |alarms| > 0 && buffer.Valid() && !buffer.wrap
    modifies buffer, buffer.storage
    ensures buffer.Valid()
    ensures ok == (|old(buffer.Contents())| + |Line(ids, alarms)| <= buffer.Capacity())
    ensures ok ==> buffer.Contents() == old(buffer.Contents()) + Line(ids, alarms)
  {
    hide Last, Elements, Consistent, Item, Items, Line;
    ghost var before, items := buffer.Contents(), Items(ids, alarms);
    LineIsEnded(ids, alarms);
    ContentsFit(buffer);
    ok := Append(buffer, "ALARM ");
    if !ok {
      SerializedGrows(items, 0);
      return false;
    }
    Readings.Nothing(items);
    for i := 0 to |ids|
      invariant buffer.Valid()
      invariant buffer.Contents() == before + ("ALARM " + Readings.Serialized(items[..i]))
    {
      ItemsSerialized(ids, alarms, i);
      ok := Append(buffer, Item(ids[i], alarms[i]) + "|");
      if !ok {
        SerializedGrows(items, i + 1);
        return false;
      }
      Regroup(before, "ALARM ", Readings.Serialized(items[..i]), Item(ids[i], alarms[i]) + "|");
    }
    assert items[..|ids|] == items;
    Readings.EndedAppend(before, "ALARM " + Readings.Serialized(items));
    ContentsFit(buffer);
    Readings.End(buffer);
    ok := true;
  }

  lemma Regroup(a: string, b: string, c: string, d: string)
    ensures a + (b + c) + d == a + (b + (c + d))
  {
  }

  lemma SerializedGrows(items: seq<string>, k: nat)
    requires k <= |items|
    ensures |Readings.Serialized(items)| >= |Readings.Serialized(items[..k])|
  {
    assert items == items[..k] + items[k..];
    Readings.SerializedAppend(items[..k], items[k..]);
  }

  /** `circular_buffer_add_array` of a text. */
  method Append(buffer: Ring<char>, text: string) returns (added: bool)
    requires buffer.Valid() && !buffer.wrap
    modifies buffer, buffer.storage
    ensures buffer.Valid() && added == (|old(buffer.Contents())| + |text| <= buffer.Capacity())
    ensures buffer.Contents() == if added then old(buffer.Contents()) + text else old(buffer.Contents())
  {
    hide Elements, Consistent, Last;
    ghost var all := buffer.Contents() + text;
    added := buffer.AddArray(text);
    if added {
      LastIsAll(all, buffer.Capacity());
    }
  }
}
