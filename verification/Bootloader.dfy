/** The boot loader: the loop of `Bootloader.c` that receives commands and program pages byte by byte, and the page writes of
    `BootloaderAPI.c`. */
module Bootloader {
  import opened Basics

  const PAGE_SIZE := 512
  const FRAME_SIZE := PAGE_SIZE + 10
  const TERMINATOR: Byte := 0x3b
  const TALK_TIMEOUT := 500_000
  const START_TIMEOUT := 1_000_000

  /** The flag at 0x0FFF of the EEPROM. */
  const PROGRAM_EXISTS: Byte := 0
  const UPDATE_STARTED: Byte := 0x55

  function Ascii(s: string): (b: seq<Byte>)
    ensures |b| == |s|
  {
    seq(|s|, i requires 0 <= i < |s| => s[i] as nat % 0x100)
  }

  const PROGRAM: seq<Byte> := [0x50, 0x52, 0x4f, 0x47, 0x52, 0x41, 0x4d]

  /** The texts sent back: DONE, BAD_REQUEST, STATUS BOOT_MODE and STATUS FIRMWARE_ERROR. */
  datatype Reply = Done | BadRequest | BootMode | FirmwareError

  /** `buffer` is the part of the receive buffer that is filled; `pages` are those acknowledged since the reset or the last
      START_BOOT; `running` ends with a jump to the program or a reset. */
  datatype Boot = Boot(buffer: seq<Byte>, flash: seq<Byte>, address: nat, pages: seq<seq<Byte>>, flag: Byte, loaded: bool,
                       countingStart: bool, startCount: nat, countingTalk: bool, talkCount: nat, replies: seq<Reply>, running: bool)

  /** What a flash cell holds after a byte was written to it. */
  type Cells = (nat, Byte) -> Byte

  // ---- one page ----

  /** `checkSum`: 513 bytes that add up to 0 on 8 bits. */
  function Sum(data: seq<Byte>): Byte {
    if data == [] then 0 else (Sum(data[..|data| - 1]) + data[|data| - 1]) % 0x100
  }

  /** The page at an address overlaid by bytes from the address on, as far as the page goes. */
  function Overlaid(page: seq<Byte>, offset: nat, bytes: seq<Byte>): (r: seq<Byte>)
    requires |page| == PAGE_SIZE && offset <= PAGE_SIZE
    ensures |r| == PAGE_SIZE
  {
    var n := if offset + |bytes| <= PAGE_SIZE then |bytes| else PAGE_SIZE - offset;
    page[..offset] + bytes[..n] + page[offset + n..]
  }

  function Kept(page: seq<Byte>, start: nat, cells: Cells): (r: seq<Byte>)
    ensures |r| == |page|
  {
    seq(|page|, i requires 0 <= i < |page| => cells(start + i, page[i]))
  }

  /** `BootloaderAPI_WriteData`: only the page of the address changes. */
  function WrittenTo(flash: seq<Byte>, address: nat, bytes: seq<Byte>, cells: Cells): (r: seq<Byte>)
    requires address / PAGE_SIZE * PAGE_SIZE + PAGE_SIZE <= |flash|
    ensures |r| == |flash|
  {
    var start := address / PAGE_SIZE * PAGE_SIZE;
    flash[..start] + Kept(Overlaid(flash[start..start + PAGE_SIZE], address % PAGE_SIZE, bytes), start, cells) + flash[start + PAGE_SIZE..]
  }

  // ---- replies and commands ----

  function Replied(b: Boot, reply: Reply): Boot {
    b.(replies := b.replies + [reply])
  }

  /** `sendStatus`. */
  function Status(b: Boot): Boot {
    if b.flag == PROGRAM_EXISTS then Replied(b, BootMode)
    else if b.flag == UPDATE_STARTED then Replied(b, FirmwareError)
    else b
  }

  function Refused(b: Boot): Boot {
    Status(Replied(b, BadRequest))
  }

  /** `decodeCommand`. */
  function Commanded(b: Boot, text: seq<Byte>): Boot {
    var command := Text(text);
    if command == Ascii("RELOAD") then Replied(b, Done).(running := false)
    else if command == Ascii("END_BOOT") then Replied(b, Done).(flag := PROGRAM_EXISTS, running := false)
    else if command == Ascii("STATUS") then Status(b)
    else if command == Ascii("START_BOOT") then
      Replied(b, Done).(countingStart := false, loaded := false, address := 0, pages := [], flag := UPDATE_STARTED)
    else Refused(b)
  }

  /** `decodeProgram`: the page is written and read back. */
  function Programmed(b: Boot, page: seq<Byte>, cells: Cells): Boot
    requires |page| == PAGE_SIZE && b.address / PAGE_SIZE * PAGE_SIZE + PAGE_SIZE <= |b.flash|
  {
    var start := b.address / PAGE_SIZE * PAGE_SIZE;
    var flash := WrittenTo(b.flash, b.address, page, cells);
    if flash[start..start + PAGE_SIZE] == page then
      Replied(b, Done).(flash := flash, address := b.address + PAGE_SIZE, pages := b.pages + [page])
    else Refused(b.(flash := flash))
  }

  // ---- the loop ----

  predicate IsProgram(text: seq<Byte>) {
    |text| >= 7 && text[..7] == PROGRAM
  }

  /** The byte completes a program frame with the right checksum. */
  predicate Completes(b: Boot, byte: Byte) {
    var text := b.buffer + [byte];
    byte == TERMINATOR && |text| == FRAME_SIZE && IsProgram(text) && Sum(text[8..FRAME_SIZE - 1]) == 0
  }

  predicate PageFits(b: Boot) {
    b.address / PAGE_SIZE * PAGE_SIZE + PAGE_SIZE <= |b.flash|
  }

  /** What the source needs of its caller when a byte comes: room in the buffer, and in the flash for a page to program. */
  predicate Fits(b: Boot, byte: Byte) {
    |b.buffer| < FRAME_SIZE && (Completes(b, byte) ==> PageFits(b))
  }

  /** A byte is received. */
  function Received(b: Boot, byte: Byte, cells: Cells): Boot
    requires Fits(b, byte)
  {
    var text := b.buffer + [byte];
    if byte != TERMINATOR || (IsProgram(text) && |text| != FRAME_SIZE) then b.(buffer := text, countingTalk := true)
    else
      var heard := b.(buffer := [], countingTalk := false, talkCount := 0);
      if !IsProgram(text) then Commanded(heard, text[..|text| - 1])
      else if Sum(text[8..FRAME_SIZE - 1]) == 0 then Programmed(heard, text[8..8 + PAGE_SIZE], cells)
      else Refused(heard)
  }

  /** A command that was not finished in time is forgotten. */
  function GivenUp(b: Boot): Boot {
    Status(Replied(b, BadRequest)).(countingTalk := false, talkCount := 0, buffer := [])
  }

  /** The rest of a round: both timeouts and both counters. */
  function Timed(b: Boot): Boot {
    if !b.running then b
    else
      var a := if b.startCount > START_TIMEOUT then b.(countingStart := false, running := !b.loaded) else b;
      if !a.running then a
      else
        var t := if a.talkCount > TALK_TIMEOUT then GivenUp(a) else a;
        t.(talkCount := if t.countingTalk then t.talkCount + 1 else 0, startCount := if t.countingStart then t.startCount + 1 else 0)
  }

  /** What happens in a round: maybe a byte comes, and the flash cells may hold other values than those written. */
  datatype Turn = Turn(byte: Option<Byte>, cells: Cells)

  predicate Permits(b: Boot, turn: Turn) {
    b.running && turn.byte.Some? ==> Fits(b, turn.byte.value)
  }

  /** One round, with or without a byte. */
  function Round(b: Boot, turn: Turn): Boot
    requires Permits(b, turn)
  {
    if !b.running then b
    else if turn.byte.None? then Timed(b)
    else Timed(Received(b, turn.byte.value, turn.cells))
  }

  /** Every round, one after the other, has the room it needs. */
  ghost predicate AllPermitted(b: Boot, turns: seq<Turn>)
    decreases |turns|, 0
  {
    turns == [] || (AllPermitted(b, turns[..|turns| - 1]) && Permits(Run(b, turns[..|turns| - 1]), turns[|turns| - 1]))
  }

  ghost function Run(b: Boot, turns: seq<Turn>): Boot
    requires AllPermitted(b, turns)
    decreases |turns|, 1
  {
    if turns == [] then b else Round(Run(b, turns[..|turns| - 1]), turns[|turns| - 1])
  }

  /** The state in which the loop starts after a reset with this flag. */
  function Reset(flash: seq<Byte>, flag: Byte): Boot {
    Status(Boot([], flash, 0, [], flag, flag == PROGRAM_EXISTS, flag == PROGRAM_EXISTS, 0, false, 0, [], true))
  }

  // ---- what every round keeps ----

  function Image(pages: seq<seq<Byte>>): seq<Byte> {
    if pages == [] then [] else Image(pages[..|pages| - 1]) + pages[|pages| - 1]
  }

  /** Below the current address the flash holds exactly the acknowledged pages. */
  ghost predicate Good(b: Boot) {
    && b.address == |b.pages| * PAGE_SIZE <= |b.flash|
    && b.flash[..b.address] == Image(b.pages)
  }

  lemma {:induction false} ImageSize(pages: seq<seq<Byte>>)
    requires forall i :: 0 <= i < |pages| ==> |pages[i]| == PAGE_SIZE
    ensures |Image(pages)| == |pages| * PAGE_SIZE
  {
    if pages != [] {
      ImageSize(pages[..|pages| - 1]);
    }
  }

  lemma AlignedWrite(flash: seq<Byte>, address: nat, page: seq<Byte>, cells: Cells)
    requires address % PAGE_SIZE == 0 && address + PAGE_SIZE <= |flash| && |page| == PAGE_SIZE
    ensures address / PAGE_SIZE * PAGE_SIZE == address
    ensures WrittenTo(flash, address, page, cells) == flash[..address] + Kept(page, address, cells) + flash[address + PAGE_SIZE..]
  {
    assert Overlaid(flash[address..address + PAGE_SIZE], 0, page) == page;
  }

  lemma Aligned(b: Boot)
    requires Good(b)
    ensures b.address % PAGE_SIZE == 0 && b.address / PAGE_SIZE * PAGE_SIZE == b.address
  {
    hide Image;
  }

  lemma ProgrammedKeeps(b: Boot, page: seq<Byte>, cells: Cells)
    requires Good(b) && PageFits(b) && |page| == PAGE_SIZE
    ensures b.address / PAGE_SIZE * PAGE_SIZE == b.address
    ensures Good(Programmed(b, page, cells)) && |Programmed(b, page, cells).flash| == |b.flash|
  {
    hide WrittenTo, Kept;
    Aligned(b);
    AlignedWrite(b.flash, b.address, page, cells);
    var flash := WrittenTo(b.flash, b.address, page, cells);
    assert flash[..b.address] == b.flash[..b.address];
    if flash[b.address..b.address + PAGE_SIZE] == page {
      assert flash[..b.address + PAGE_SIZE] == flash[..b.address] + page;
      assert (b.pages + [page])[..|b.pages|] == b.pages;
    }
  }

  lemma CommandedKeeps(b: Boot, text: seq<Byte>)
    requires Good(b)
    ensures Good(Commanded(b, text)) && Commanded(b, text).flash == b.flash
  {
    hide Text, Ascii, Status, Refused, Image;
    StatusKeeps(b);
    RefusedKeeps(b);
    assert Image([]) == [] by {
      NoPages();
    }
  }

  lemma NoPages()
    ensures Image([]) == []
  {
  }

  lemma StatusKeeps(b: Boot)
    ensures var r := Status(b); r == b.(replies := r.replies)
  {
  }

  lemma TimedKeeps(b: Boot)
    requires Good(b)
    ensures Good(Timed(b)) && Timed(b).flash == b.flash
  {
    hide Image;
  }

  lemma ReceivedKeeps(b: Boot, byte: Byte, cells: Cells)
    requires Good(b) && Fits(b, byte)
    ensures Good(Received(b, byte, cells)) && |Received(b, byte, cells).flash| == |b.flash|
  {
    hide Programmed, Commanded, Image, Sum, IsProgram, Status, Good;
    var text := b.buffer + [byte];
    var heard := b.(buffer := [], countingTalk := false, talkCount := 0);
    SameGood(b, heard);
    SameGood(b, b.(buffer := text, countingTalk := true));
    CommandedKeeps(heard, text[..|text| - 1]);
    RefusedKeeps(heard);
    SameGood(heard, Refused(heard));
    if Completes(b, byte) {
      ProgrammedKeeps(heard, text[8..8 + PAGE_SIZE], cells);
    }
  }

  lemma SameGood(b: Boot, c: Boot)
    requires Good(b) && c.flash == b.flash && c.address == b.address && c.pages == b.pages
    ensures Good(c)
  {
  }

  lemma RefusedKeeps(b: Boot)
    ensures var r := Refused(b); r == b.(replies := r.replies)
  {
  }

  lemma RoundKeeps(b: Boot, turn: Turn)
    requires Good(b) && Permits(b, turn)
    ensures Good(Round(b, turn)) && |Round(b, turn).flash| == |b.flash|
  {
    hide Received, Timed, Good, Fits;
    if b.running {
      if turn.byte.Some? {
        ReceivedKeeps(b, turn.byte.value, turn.cells);
        TimedKeeps(Received(b, turn.byte.value, turn.cells));
      } else {
        TimedKeeps(b);
      }
    }
  }

  /** In every run after a reset in which no byte comes while the receive buffer is full and no page is programmed beyond the flash,
      whatever bytes come or do not come otherwise, whatever times out and whatever the flash cells make of what is written, the
      flash below the address is exactly the pages acknowledged since the reset or the last START_BOOT. */
  lemma {:induction false} FlashIsAcknowledged(flash: seq<Byte>, flag: Byte, turns: seq<Turn>)
    requires AllPermitted(Reset(flash, flag), turns)
    ensures var b := Run(Reset(flash, flag), turns);
            b.address == |b.pages| * PAGE_SIZE <= |b.flash| == |flash| && b.flash[..b.address] == Image(b.pages)
  {
    hide Image, Round, Permits;
    var b := Reset(flash, flag);
    if turns == [] {
      StatusKeeps(Boot([], flash, 0, [], flag, flag == PROGRAM_EXISTS, flag == PROGRAM_EXISTS, 0, false, 0, [], true));
      NoPages();
    } else {
      var front := turns[..|turns| - 1];
      FlashIsAcknowledged(flash, flag, front);
      RoundKeeps(Run(b, front), turns[|turns| - 1]);
    }
  }

  // ---- frames ----

  /** A PROGRAM frame: the name, any byte, the page, the checksum and the terminator. */
  function Frame(separator: Byte, page: seq<Byte>, checksum: Byte): seq<Byte> {
    PROGRAM + [separator] + page + [checksum, TERMINATOR]
  }

  /** The bytes that come in these rounds. */
  function Bytes(turns: seq<Turn>): (bytes: seq<Byte>)
    ensures |bytes| <= |turns|
  {
    if turns == [] then []
    else
      match turns[|turns| - 1].byte
      case None => Bytes(turns[..|turns| - 1])
      case Some(x) => Bytes(turns[..|turns| - 1]) + [x]
  }

  /** Nothing is buffered, the program is not about to be started, and nothing times out in that many rounds. */
  predicate AtEase(b: Boot, rounds: nat) {
    && b.running && b.buffer == [] && b.talkCount + rounds <= TALK_TIMEOUT && b.startCount + rounds <= START_TIMEOUT
  }

  /** r is b after that many rounds in which only time passed, with something else in the buffer. */
  predicate OnlyBuffers(b: Boot, r: Boot, buffer: seq<Byte>, rounds: nat) {
    && r == b.(buffer := buffer, countingTalk := r.countingTalk, talkCount := r.talkCount, startCount := r.startCount)
    && r.talkCount <= b.talkCount + rounds && r.startCount <= b.startCount + rounds
  }

  /** A terminator inside a frame does not end it: up to its last byte the frame is only buffered, however many rounds without a
      byte lie between its bytes. */
  lemma {:induction false} FrameIsBuffered(b: Boot, turns: seq<Turn>, frame: seq<Byte>)
    requires AtEase(b, |turns|) && |frame| == FRAME_SIZE && frame[..7] == PROGRAM
    requires |Bytes(turns)| < FRAME_SIZE && Bytes(turns) == frame[..|Bytes(turns)|]
    ensures AllPermitted(b, turns) && OnlyBuffers(b, Run(b, turns), Bytes(turns), |turns|)
  {
    hide Run, AllPermitted, Round, Permits, IsProgram;
    if turns == [] {
      RunsNothing(b);
    } else {
      var front, turn := turns[..|turns| - 1], turns[|turns| - 1];
      var n := |Bytes(turns)|;
      assert Bytes(front) == frame[..|Bytes(front)|] by {
        assert turn.byte.Some? ==> Bytes(front) == Bytes(turns)[..n - 1] && frame[..n][..n - 1] == frame[..n - 1];
      }
      FrameIsBuffered(b, front, frame);
      var r := Run(b, front);
      if turn.byte.Some? {
        InsideFrame(frame, n);
        assert r.buffer + [turn.byte.value] == Bytes(turns) && turn.byte.value == frame[n - 1];
        NotComplete(r, turn.byte.value);
        JustBuffered(r, turn);
      } else {
        NothingComes(r, turn);
      }
      RunsLast(b, turns);
    }
  }

  lemma RunsNothing(b: Boot)
    ensures AllPermitted(b, []) && Run(b, []) == b
  {
  }

  lemma RunsLast(b: Boot, turns: seq<Turn>)
    requires turns != [] && AllPermitted(b, turns[..|turns| - 1])
    requires Permits(Run(b, turns[..|turns| - 1]), turns[|turns| - 1])
    ensures AllPermitted(b, turns) && Run(b, turns) == Round(Run(b, turns[..|turns| - 1]), turns[|turns| - 1])
  {
    hide Round, Permits;
  }

  lemma FrameBegins(separator: Byte, page: seq<Byte>, checksum: Byte)
    requires |page| == PAGE_SIZE
    ensures var frame := Frame(separator, page, checksum); |frame| == FRAME_SIZE && frame[..7] == PROGRAM
  {
  }

  /** The n-th byte of a frame is no terminator, or comes after the name and before the end. */
  lemma InsideFrame(frame: seq<Byte>, n: nat)
    requires |frame| == FRAME_SIZE && frame[..7] == PROGRAM && 0 < n < FRAME_SIZE
    ensures frame[n - 1] != TERMINATOR || IsProgram(frame[..n])
  {
    if n <= 7 {
      assert frame[n - 1] == frame[..7][n - 1] == PROGRAM[n - 1];
    } else {
      assert frame[..n][..7] == frame[..7];
    }
  }

  lemma NotComplete(b: Boot, byte: Byte)
    requires |b.buffer| + 1 < FRAME_SIZE
    ensures Fits(b, byte)
  {
  }

  lemma JustBuffered(b: Boot, turn: Turn)
    requires turn.byte.Some? && Fits(b, turn.byte.value) && b.running && |b.buffer| + 1 < FRAME_SIZE
    requires turn.byte.value != TERMINATOR || IsProgram(b.buffer + [turn.byte.value])
    requires b.talkCount <= TALK_TIMEOUT && b.startCount <= START_TIMEOUT
    ensures Permits(b, turn) && OnlyBuffers(b, Round(b, turn), b.buffer + [turn.byte.value], 1)
  {
    hide IsProgram, Fits;
  }

  lemma NothingComes(b: Boot, turn: Turn)
    requires turn.byte.None? && b.running && b.talkCount <= TALK_TIMEOUT && b.startCount <= START_TIMEOUT
    ensures Permits(b, turn) && OnlyBuffers(b, Round(b, turn), b.buffer, 1)
  {
  }

  /** The page is in the flash at the address, counted and acknowledged. */
  predicate Delivered(b: Boot, r: Boot, page: seq<Byte>) {
    && b.address + |page| <= |b.flash|
    && r.flash == b.flash[..b.address] + page + b.flash[b.address + |page|..]
    && r.address == b.address + |page| && r.pages == b.pages + [page] && r.replies == b.replies + [Done]
  }

  /** Nothing is changed but that the frame is refused. */
  predicate Rejected(b: Boot, r: Boot) {
    && r.flash == b.flash && r.address == b.address && r.pages == b.pages
    && |r.replies| > |b.replies| && r.replies[..|b.replies| + 1] == b.replies + [BadRequest]
  }

  lemma RefusedRejects(b: Boot)
    ensures Rejected(b, Refused(b))
  {
  }

  /** The flash cells hold what is written to them. */
  ghost predicate Faithful(cells: Cells) {
    forall a, v :: cells(a, v) == v
  }

  /** r is what b should be after a frame with this page: delivered if the checksum is right, and rejected if not. */
  predicate Answered(b: Boot, r: Boot, page: seq<Byte>, checksum: Byte) {
    if Sum(page + [checksum]) == 0 then Delivered(b, r, page) else Rejected(b, r)
  }

  /** A complete frame delivers its page as it is, whatever bytes it is made of and however many rounds without a byte lie
      between them or follow. If the checksum is right and the flash holds what is written to it, the page is in the flash at the
      current address and acknowledged; if the checksum is wrong, nothing but the replies changes. */
  lemma {:induction false} FrameDelivered(b: Boot, turns: seq<Turn>, separator: Byte, page: seq<Byte>, checksum: Byte)
    requires AtEase(b, |turns|) && |page| == PAGE_SIZE && Bytes(turns) == Frame(separator, page, checksum)
    requires Sum(page + [checksum]) == 0 ==> b.address % PAGE_SIZE == 0 && b.address + PAGE_SIZE <= |b.flash|
    ensures AllPermitted(b, turns)
    ensures var r := Run(b, turns);
            && r.buffer == [] && r.running && r.talkCount <= b.talkCount + |turns| && r.startCount <= b.startCount + |turns|
            && (Sum(page + [checksum]) != 0 || (forall i :: 0 <= i < |turns| ==> Faithful(turns[i].cells)) ==>
                  Answered(b, r, page, checksum))
    decreases |turns|
  {
    hide Run, AllPermitted, Round, Permits, Sum, Answered, Frame, Faithful;
    var frame := Frame(separator, page, checksum);
    FrameBegins(separator, page, checksum);
    var front, turn := turns[..|turns| - 1], turns[|turns| - 1];
    if turn.byte.None? {
      FrameDelivered(b, front, separator, page, checksum);
      NothingComes(Run(b, front), turn);
      SameAnswer(b, Run(b, front), Round(Run(b, front), turn), page, checksum);
    } else {
      assert frame[..FRAME_SIZE - 1] == Bytes(front);
      FrameIsBuffered(b, front, frame);
      LastByte(Run(b, front), turn, separator, page, checksum);
      if Answered(Run(b, front), Round(Run(b, front), turn), page, checksum) {
        SameAnswer(Run(b, front), b, Round(Run(b, front), turn), page, checksum);
      }
    }
    RunsLast(b, turns);
  }

  /** Buffer, flags and counters have no part in it. */
  lemma SameAnswer(b: Boot, c: Boot, r: Boot, page: seq<Byte>, checksum: Byte)
    ensures Same(b, c) && Answered(b, r, page, checksum) ==> Answered(c, r, page, checksum)
    ensures Same(c, r) && Answered(b, c, page, checksum) ==> Answered(b, r, page, checksum)
  {
    hide Sum;
  }

  predicate Same(b: Boot, c: Boot) {
    c.flash == b.flash && c.address == b.address && c.pages == b.pages && c.replies == b.replies
  }

  /** The terminator at the end of a frame. */
  lemma {:induction false} LastByte(b: Boot, turn: Turn, separator: Byte, page: seq<Byte>, checksum: Byte)
    requires b.running && |page| == PAGE_SIZE && turn.byte.Some? && b.buffer + [turn.byte.value] == Frame(separator, page, checksum)
    requires b.talkCount <= TALK_TIMEOUT && b.startCount <= START_TIMEOUT
    requires Sum(page + [checksum]) == 0 ==> b.address % PAGE_SIZE == 0 && b.address + PAGE_SIZE <= |b.flash|
    ensures Permits(b, turn)
    ensures var r := Round(b, turn);
            && r.buffer == [] && r.running && r.talkCount == 0 && r.startCount <= b.startCount + 1
            && (Sum(page + [checksum]) != 0 || Faithful(turn.cells) ==> Answered(b, r, page, checksum))
  {
    hide Programmed, Refused, Sum, Answered, Faithful;
    FrameParts(b.buffer, turn.byte.value, separator, page, checksum);
    var heard := b.(buffer := [], countingTalk := false, talkCount := 0);
    var r := Received(b, turn.byte.value, turn.cells);
    if Sum(page + [checksum]) == 0 {
      ProgrammedCounts(heard, page, turn.cells);
    } else {
      RefusedKeeps(heard);
    }
    OnlyTime(r);
    if Sum(page + [checksum]) != 0 || Faithful(turn.cells) {
      PageAnswered(heard, page, checksum, turn.cells);
      SameAnswer(heard, b, r, page, checksum);
      SameAnswer(b, r, Round(b, turn), page, checksum);
    }
  }

  lemma FrameParts(buffer: seq<Byte>, last: Byte, separator: Byte, page: seq<Byte>, checksum: Byte)
    requires |page| == PAGE_SIZE && buffer + [last] == Frame(separator, page, checksum)
    ensures var text := buffer + [last];
            && last == TERMINATOR && |text| == FRAME_SIZE && IsProgram(text)
            && text[8..FRAME_SIZE - 1] == page + [checksum] && text[8..8 + PAGE_SIZE] == page
  {
    var text := buffer + [last];
    assert last == text[FRAME_SIZE - 1] == Frame(separator, page, checksum)[FRAME_SIZE - 1];
  }

  lemma OnlyTime(b: Boot)
    requires b.running && b.talkCount == 0 && b.startCount <= START_TIMEOUT && !b.countingTalk
    ensures var r := Timed(b); r == b.(startCount := r.startCount) && r.startCount <= b.startCount + 1
  {
  }

  lemma ProgrammedCounts(b: Boot, page: seq<Byte>, cells: Cells)
    requires |page| == PAGE_SIZE && PageFits(b)
    ensures var r := Programmed(b, page, cells);
            r == b.(flash := r.flash, address := r.address, pages := r.pages, replies := r.replies)
  {
    hide WrittenTo;
    RefusedKeeps(b.(flash := WrittenTo(b.flash, b.address, page, cells)));
  }

  lemma PageAnswered(b: Boot, page: seq<Byte>, checksum: Byte, cells: Cells)
    requires |page| == PAGE_SIZE
    requires Sum(page + [checksum]) == 0 ==> b.address % PAGE_SIZE == 0 && b.address + PAGE_SIZE <= |b.flash|
    requires Sum(page + [checksum]) != 0 || Faithful(cells)
    ensures Sum(page + [checksum]) == 0 ==> PageFits(b)
    ensures Answered(b, if Sum(page + [checksum]) == 0 then Programmed(b, page, cells) else Refused(b), page, checksum)
  {
    hide WrittenTo, Sum, Refused;
    if Sum(page + [checksum]) == 0 {
      AlignedWrite(b.flash, b.address, page, cells);
      assert Kept(page, b.address, cells) == page;
    } else {
      RefusedRejects(b);
    }
  }

  // ---- the program ----

  lemma SumNext(data: seq<Byte>, x: Byte)
    ensures Sum(data + [x]) == (Sum(data) + x) % 0x100
  {
    assert (data + [x])[..|data|] == data;
  }

  /** `checkSum`, over the bytes from a position of the buffer. */
  method CheckSum(buffer: array<Byte>, start: nat) returns (ok: bool)
    requires start + PAGE_SIZE + 1 <= buffer.Length
    ensures ok == (Sum(buffer[start..start + PAGE_SIZE + 1]) == 0)
  {
    var cs: Byte := 0;
    assert buffer[start..start] == [];
    for i := 0 to PAGE_SIZE + 1
      invariant cs == Sum(buffer[start..start + i])
    {
      SumNext(buffer[start..start + i], buffer[start + i]);
      assert buffer[start..start + i] + [buffer[start + i]] == buffer[start..start + i + 1];
      cs := (cs as nat + buffer[start + i]) % 0x100;
    }
    ok := cs == 0;
  }

  class Loader {
    const buffer: array<Byte>
    const flash: array<Byte>
    var received: nat
    var address: nat
    var flag: Byte
    var loaded: bool
    var countingStart: bool
    var startCount: nat
    var countingTalk: bool
    var talkCount: nat
    var running: bool

    /** What was observed: the pages acknowledged since START_BOOT and the replies. */
    var pages: seq<seq<Byte>>
    var replies: seq<Reply>

    ghost predicate Valid()
      reads this, buffer
    {
      buffer.Length == FRAME_SIZE && received <= FRAME_SIZE && buffer != flash
    }

    ghost function State(): Boot
      requires Valid()
      reads this, buffer, flash
    {
      Boot(buffer[..received], flash[..], address, pages, flag, loaded, countingStart, startCount, countingTalk, talkCount, replies,
           running)
    }

    /** The variables of `main` before the loop, after a reset with this flag. */
    constructor (flash: array<Byte>, flag: Byte)
      ensures Valid() && this.flash == flash && fresh(buffer)
      ensures State() == Reset(flash[..], flag)
      ensures Good(State())
    {
      this.flash, this.flag := flash, flag;
      buffer := new Byte[FRAME_SIZE](_ => 0);
      received, address, startCount, talkCount := 0, 0, 0, 0;
      loaded, countingStart, countingTalk, running := flag == PROGRAM_EXISTS, flag == PROGRAM_EXISTS, false, true;
      pages, replies := [], [];
      new;
      SendStatus();
    }

    method Send(reply: Reply)
      requires Valid()
      modifies this
      ensures Valid() && State() == Replied(old(State()), reply)
    {
      replies := replies + [reply];
    }

    method SendStatus()
      requires Valid()
      modifies this
      ensures Valid() && State() == Status(old(State()))
    {
      if flag == PROGRAM_EXISTS {
        Send(BootMode);
      } else if flag == UPDATE_STARTED {
        Send(FirmwareError);
      }
    }

    method Refuse()
      requires Valid()
      modifies this
      ensures Valid() && State() == Refused(old(State()))
    {
      Send(BadRequest);
      SendStatus();
    }

    /** `decodeCommand`. */
    method DecodeCommand(text: seq<Byte>)
      requires Valid()
      modifies this
      ensures Valid() && State() == Commanded(old(State()), text)
    {
      hide Text, Ascii;
      var command := Text(text);
      if command == Ascii("RELOAD") {
        Send(Done);
        running := false;
      } else if command == Ascii("END_BOOT") {
        flag := PROGRAM_EXISTS;
        Send(Done);
        running := false;
      } else if command == Ascii("STATUS") {
        SendStatus();
      } else if command == Ascii("START_BOOT") {
        countingStart, loaded, address, pages := false, false, 0, [];
        flag := UPDATE_STARTED;
        Send(Done);
      } else {
        Refuse();
      }
    }

    /** `BootloaderAPI_WriteData`. */
    method WriteData(to: nat, data: seq<Byte>, cells: Cells)
      requires Valid() && to / PAGE_SIZE * PAGE_SIZE + PAGE_SIZE <= flash.Length
      modifies flash
      ensures Valid() && flash[..] == WrittenTo(old(flash[..]), to, data, cells)
    {
      var start := to / PAGE_SIZE * PAGE_SIZE;
      var offset := to % PAGE_SIZE;
      ghost var before := flash[..];
      var page := Overlay(flash[start..start + PAGE_SIZE], offset, data);
      EraseWrite(start, page, cells);
      assert flash[..] == before[..start] + Kept(page, start, cells) + before[start + PAGE_SIZE..];
    }

    /** Its loop, over the page read before. */
    method Overlay(read: seq<Byte>, offset: nat, data: seq<Byte>) returns (page: seq<Byte>)
      requires |read| == PAGE_SIZE && offset < PAGE_SIZE
      ensures page == Overlaid(read, offset, data)
    {
      page := read;
      var add, i := offset, 0;
      while add < PAGE_SIZE && i < |data|
        invariant add == offset + i <= PAGE_SIZE && i <= |data|
        invariant page == read[..offset] + data[..i] + read[add..]
      {
        ghost var before := page;
        page := page[add := data[i]];
        assert before[..add] + [data[i]] + before[add + 1..] == read[..offset] + data[..i + 1] + read[add + 1..];
        add, i := add + 1, i + 1;
      }
    }

    /** The flash controller writes a page. */
    method EraseWrite(start: nat, page: seq<Byte>, cells: Cells)
      requires |page| == PAGE_SIZE && start + PAGE_SIZE <= flash.Length
      modifies flash
      ensures flash[..] == old(flash[..start]) + Kept(page, start, cells) + old(flash[start + PAGE_SIZE..])
    {
      for i := 0 to PAGE_SIZE
        invariant flash[..] == old(flash[..start]) + Kept(page, start, cells)[..i] + old(flash[start + i..])
      {
        ghost var before := flash[..];
        flash[start + i] := cells(start + i, page[i]);
        assert flash[..] == before[start + i := Kept(page, start, cells)[i]];
      }
    }

    /** `decodeProgram`. */
    method DecodeProgram(page: seq<Byte>, cells: Cells)
      requires Valid() && |page| == PAGE_SIZE && PageFits(State())
      modifies this, flash
      ensures Valid() && State() == Programmed(old(State()), page, cells)
    {
      hide WrittenTo;
      var start := address / PAGE_SIZE * PAGE_SIZE;
      WriteData(address, page, cells);
      if flash[start..start + PAGE_SIZE] != page {
        Refuse();
        return;
      }
      address := address + PAGE_SIZE;
      pages := pages + [page];
      Send(Done);
    }

    /** The first part of a round: a byte has come. */
    method ReceiveByte(byte: Byte, cells: Cells)
      requires Valid() && Fits(State(), byte)
      modifies this, buffer, flash
      ensures Valid() && State() == Received(old(State()), byte, cells)
    {
      hide Programmed, Commanded, Refused, Sum;
      ghost var before := State();
      countingTalk := true;
      buffer[received] := byte;
      received := received + 1;
      ghost var text := before.buffer + [byte];
      assert buffer[..received] == text;
      if byte == TERMINATOR {
        if received >= 7 && buffer[..7] == PROGRAM {
          assert buffer[..7] == text[..7];
          if received == FRAME_SIZE {
            var ok := CheckSum(buffer, 8);
            talkCount, countingTalk, received := 0, false, 0;
            assert buffer[8..8 + PAGE_SIZE + 1] == text[8..FRAME_SIZE - 1] && buffer[8..8 + PAGE_SIZE] == text[8..8 + PAGE_SIZE];
            if ok {
              DecodeProgram(buffer[8..8 + PAGE_SIZE], cells);
            } else {
              Refuse();
            }
          }
        } else {
          assert !IsProgram(text);
          var command := buffer[..received - 1];
          talkCount, countingTalk, received := 0, false, 0;
          DecodeCommand(command);
        }
      }
    }

    method GiveUp()
      requires Valid()
      modifies this
      ensures Valid() && State() == GivenUp(old(State()))
    {
      hide Status;
      Send(BadRequest);
      SendStatus();
      countingTalk, talkCount, received := false, 0, 0;
    }

    /** The rest of a round. */
    method CountTime()
      requires Valid()
      modifies this
      ensures Valid() && State() == Timed(old(State()))
    {
      hide GivenUp;
      if !running {
        return;
      }
      if startCount > START_TIMEOUT {
        countingStart := false;
        if loaded {
          running := false;
          return;
        }
      }
      if talkCount > TALK_TIMEOUT {
        GiveUp();
      }
      talkCount := if countingTalk then talkCount + 1 else 0;
      startCount := if countingStart then startCount + 1 else 0;
    }

    /** One round of the endless loop of `main`. */
    method OneRound(turn: Turn)
      requires Valid() && Permits(State(), turn)
      modifies this, buffer, flash
      ensures Valid() && State() == Round(old(State()), turn)
      ensures old(Good(State())) ==> Good(State())
    {
      hide Received, Timed, Good, Fits;
      if old(Good(State())) {
        RoundKeeps(State(), turn);
      }
      if running {
        if turn.byte.Some? {
          ReceiveByte(turn.byte.value, turn.cells);
        }
        CountTime();
      }
    }
  }
}
