/** Framing of the command stream, `extract_command_from_string_buffer` and `extract_commands_from_string_buffer` of
    `command_parser.c`. A command is the text of its segment; parsing it is not part of this module. */
module Framing {
  import opened CircularBuffer

  const TERMINATOR := ';'
  const COMMAND_MAX_LENGTH := 96

  // ---- segments of a text ----

  /** The length of the first segment, its terminator included, or of the whole text if there is none. */
  function SegmentLength(s: string): (n: nat)
    ensures n <= |s|
    ensures forall i :: 0 <= i < n - 1 ==> s[i] != TERMINATOR
    ensures TERMINATOR in s ==> n > 0 && s[n - 1] == TERMINATOR
    ensures TERMINATOR !in s ==> n == |s|
  {
    if s == [] then 0 else if s[0] == TERMINATOR then 1 else 1 + SegmentLength(s[1..])
  }

  function Commands(s: string): (commands: seq<string>)
    decreases |s|
  {
    if TERMINATOR !in s then []
    else [s[..SegmentLength(s)]] + Commands(s[SegmentLength(s)..])
  }

  function Remainder(s: string): (rest: string)
    decreases |s|
  {
    if TERMINATOR !in s then s else Remainder(s[SegmentLength(s)..])
  }

  predicate IsSegment(s: string) {
    s != [] && s[|s| - 1] == TERMINATOR && TERMINATOR !in s[..|s| - 1]
  }

  function Joined(segments: seq<string>): string {
    if segments == [] then [] else segments[0] + Joined(segments[1..])
  }

  lemma Unfold(s: string)
    ensures TERMINATOR in s ==>
              var n := SegmentLength(s);
              && 0 < n && IsSegment(s[..n])
              && Commands(s) == [s[..n]] + Commands(s[n..]) && Remainder(s) == Remainder(s[n..])
    ensures TERMINATOR !in s ==> Commands(s) == [] && Remainder(s) == s
  {
  }

  /** The segments and what follows them make up the text. */
  lemma {:induction false} FramingSplits(s: string)
    ensures Joined(Commands(s)) + Remainder(s) == s
    ensures (forall i :: 0 <= i < |Commands(s)| ==> IsSegment(Commands(s)[i])) && TERMINATOR !in Remainder(s)
    decreases |s|
  {
    hide Commands, Remainder, SegmentLength, IsSegment;
    Unfold(s);
    if TERMINATOR in s {
      var n := SegmentLength(s);
      FramingSplits(s[n..]);
      assert s == s[..n] + s[n..];
    }
  }

  /** There is one way only to do so. */
  lemma {:induction false} FramingUnique(segments: seq<string>, rest: string)
    requires (forall i :: 0 <= i < |segments| ==> IsSegment(segments[i])) && TERMINATOR !in rest
    ensures Commands(Joined(segments) + rest) == segments && Remainder(Joined(segments) + rest) == rest
    decreases |segments|
  {
    var s := Joined(segments) + rest;
    if segments == [] {
      assert s == rest;
    } else {
      var first, more := segments[0], Joined(segments[1..]) + rest;
      assert s == first + more;
      FirstSegment(first, more);
      assert forall i :: 0 <= i < |segments| - 1 ==> segments[1..][i] == segments[i + 1];
      FramingUnique(segments[1..], rest);
    }
  }

  lemma {:induction false} SegmentEnds(s: string, n: nat)
    requires 0 < n <= |s| && (forall i :: 0 <= i < n - 1 ==> s[i] != TERMINATOR) && s[n - 1] == TERMINATOR
    ensures TERMINATOR in s && SegmentLength(s) == n
    decreases n
  {
    if n > 1 {
      assert s[0] != TERMINATOR;
      SegmentEnds(s[1..], n - 1);
    }
  }

  lemma FirstSegment(first: string, more: string)
    requires IsSegment(first)
    ensures var s := first + more;
            TERMINATOR in s && SegmentLength(s) == |first| && s[..|first|] == first && s[|first|..] == more
  {
    var s := first + more;
    assert forall i :: 0 <= i < |first| - 1 ==> s[i] == first[..|first| - 1][i];
    SegmentEnds(s, |first|);
  }

  /** Cutting the text anywhere and extracting twice gives the same. */
  lemma {:induction false} FramingOfTwo(a: string, b: string)
    ensures Commands(a + b) == Commands(a) + Commands(Remainder(a) + b)
    ensures Remainder(a + b) == Remainder(Remainder(a) + b)
    decreases |a|
  {
    if TERMINATOR in a {
      var n := SegmentLength(a);
      var first, more := a[..n], a[n..];
      assert IsSegment(first);
      assert a + b == first + (more + b);
      FirstSegment(first, more + b);
      FramingOfTwo(more, b);
    }
  }

  // ---- chunks ----

  /** The commands extracted from chunks arriving one by one, and what is left over. */
  function CommandsOf(chunks: seq<string>): seq<string> {
    if chunks == [] then []
    else CommandsOf(chunks[..|chunks| - 1]) + Commands(RemainderOf(chunks[..|chunks| - 1]) + chunks[|chunks| - 1])
  }

  function RemainderOf(chunks: seq<string>): string {
    if chunks == [] then [] else Remainder(RemainderOf(chunks[..|chunks| - 1]) + chunks[|chunks| - 1])
  }

  /** However the stream is cut, the commands are those of the whole. */
  lemma {:induction false} FramingOfChunks(chunks: seq<string>)
    ensures CommandsOf(chunks) == Commands(Flatten(chunks)) && RemainderOf(chunks) == Remainder(Flatten(chunks))
  {
    if chunks != [] {
      var front := chunks[..|chunks| - 1];
      FramingOfChunks(front);
      FramingOfTwo(Flatten(front), chunks[|chunks| - 1]);
    }
  }

  lemma NoChunks(chunks: seq<string>)
    ensures CommandsOf(chunks[..0]) == [] && RemainderOf(chunks[..0]) == ""
  {
  }

  lemma ChunkNext(chunks: seq<string>, k: nat)
    requires k < |chunks|
    ensures var s := RemainderOf(chunks[..k]) + chunks[k];
            CommandsOf(chunks[..k + 1]) == CommandsOf(chunks[..k]) + Commands(s) && RemainderOf(chunks[..k + 1]) == Remainder(s)
  {
    hide Commands, Remainder;
    assert chunks[..k + 1][..k] == chunks[..k];
  }

  // ---- the buffers ----

  /** The segments up to the last terminator fit the array that `extract_command_from_string_buffer` pops them into. */
  predicate SegmentsFit(s: string) {
    forall i :: 0 <= i < |Commands(s)| ==> |Commands(s)[i]| <= COMMAND_MAX_LENGTH
  }

  lemma {:induction false} TakenFits(s: string)
    requires SegmentsFit(s) && TERMINATOR in s
    ensures SegmentLength(s) <= COMMAND_MAX_LENGTH && SegmentsFit(s[SegmentLength(s)..])
  {
    var commands, n := Commands(s), SegmentLength(s);
    assert commands[0] == s[..n];
    assert forall i :: 0 <= i < |commands| - 1 ==> Commands(s[n..])[i] == commands[i + 1];
  }

  /** `extract_command_from_string_buffer`: false if no terminator is buffered, and then nothing is taken. */
  method ExtractCommand(buffer: Ring<char>) returns (extracted: bool, command: string)
    requires buffer.Valid() && SegmentsFit(buffer.Contents())
    modifies buffer
    ensures buffer.Valid()
    ensures extracted == (TERMINATOR in old(buffer.Contents()))
    ensures extracted ==> command + buffer.Contents() == old(buffer.Contents())
                          && command == old(buffer.Contents())[..SegmentLength(old(buffer.Contents()))]
    ensures !extracted ==> buffer.Contents() == old(buffer.Contents())
  {
    ghost var s := buffer.Contents();
    var length, character := 0, '\0';
    var more, peeked := buffer.Peek(length);
    length := length + 1;
    if more {
      character := peeked;
    }
    while more && character != TERMINATOR
      invariant 0 < length && buffer.Valid() && buffer.Contents() == s
      invariant more == (length - 1 < |s|)
      invariant more ==> character == s[length - 1]
      invariant !more ==> character != TERMINATOR && length - 1 == |s|
      invariant forall i :: 0 <= i < length - 1 ==> s[i] != TERMINATOR
      decreases |s| + 1 - length
    {
      more, peeked := buffer.Peek(length);
      length := length + 1;
      if more {
        character := peeked;
      }
    }
    if character != TERMINATOR {
      return false, [];
    }
    SegmentEnds(s, length);
    TakenFits(s);
    command := buffer.PopArray(length);
    extracted := true;
  }

  /** `extract_commands_from_string_buffer`; its count has 8 bits, and the command buffer forgets its oldest commands when it
      is full. */
  method ExtractCommands(buffer: Ring<char>, commands: Ring<string>) returns (count: nat)
    requires buffer.Valid() && commands.Valid() && commands.wrap && SegmentsFit(buffer.Contents())
    modifies buffer, commands, commands.storage
    ensures buffer.Valid() && commands.Valid()
    ensures buffer.Contents() == Remainder(old(buffer.Contents()))
    ensures commands.Contents() == Last(old(commands.Contents()) + Commands(old(buffer.Contents())), commands.Capacity())
    ensures count == |Commands(old(buffer.Contents()))| % 0x100
  {
    hide Commands, Remainder, SegmentsFit, SegmentLength, IsSegment, Last, Elements, Consistent;
    ghost var s, before := buffer.Contents(), commands.Contents();
    ghost var done: seq<string> := [];
    count := 0;
    assert before + done == before && [] + Commands(s) == Commands(s);
    ContentsFit(commands);
    var extracted := true;
    while extracted
      invariant buffer.Valid() && commands.Valid() && SegmentsFit(buffer.Contents())
      invariant done + Commands(buffer.Contents()) == Commands(s) && Remainder(buffer.Contents()) == Remainder(s)
      invariant commands.Contents() == Last(before + done, commands.Capacity())
      invariant count == |done| % 0x100
      invariant !extracted ==> TERMINATOR !in buffer.Contents()
      decreases |buffer.Contents()|, extracted
    {
      ghost var text := buffer.Contents();
      Unfold(text);
      extracted := ExtractInto(buffer, commands);
      if extracted {
        ghost var command := text[..SegmentLength(text)];
        assert done + ([command] + Commands(buffer.Contents())) == (done + [command]) + Commands(buffer.Contents());
        LastOfAppend(before, done, command, commands.Capacity());
        done := done + [command];
        count := (count + 1) % 0x100;
      }
    }
    Unfold(buffer.Contents());
    assert done + [] == done;
  }

  /** One round of that loop. */
  method ExtractInto(buffer: Ring<char>, commands: Ring<string>) returns (extracted: bool)
    requires buffer.Valid() && commands.Valid() && commands.wrap && SegmentsFit(buffer.Contents())
    modifies buffer, commands, commands.storage
    ensures buffer.Valid() && commands.Valid() && SegmentsFit(buffer.Contents())
    ensures extracted == (TERMINATOR in old(buffer.Contents()))
    ensures var s := old(buffer.Contents());
            var n := SegmentLength(s);
            if extracted then
              && buffer.Contents() == s[n..]
              && commands.Contents() == Last(old(commands.Contents()) + [s[..n]], commands.Capacity())
            else
              buffer.Contents() == s && commands.Contents() == old(commands.Contents())
  {
    hide Commands, SegmentsFit, SegmentLength, Last, Elements, Consistent;
    ghost var s := buffer.Contents();
    var command;
    extracted, command := ExtractCommand(buffer);
    if extracted {
      TakenFits(s);
      assert s[SegmentLength(s)..] == buffer.Contents();
      var _ := commands.Add(command);
    }
  }

  /** The stream as it arrives: each chunk is buffered and the commands in the buffer are extracted and taken. */
  method Receive(buffer: Ring<char>, commands: Ring<string>, chunks: seq<string>) returns (taken: seq<string>)
    requires buffer.Valid() && commands.Valid() && commands.wrap && buffer.Contents() == [] && commands.Contents() == []
    requires forall k :: 0 <= k < |chunks| ==>
                           var s := RemainderOf(chunks[..k]) + chunks[k];
                           |s| <= buffer.Capacity() && SegmentsFit(s) && |Commands(s)| <= commands.Capacity()
    modifies buffer, buffer.storage, commands, commands.storage
    ensures buffer.Valid() && commands.Valid() && commands.Contents() == []
    ensures taken == Commands(Flatten(chunks)) && buffer.Contents() == Remainder(Flatten(chunks))
  {
    hide Commands, Remainder, SegmentsFit, Elements, Consistent, CommandsOf, RemainderOf, Last;
    taken := [];
    NoChunks(chunks);
    for k := 0 to |chunks|
      invariant buffer.Valid() && commands.Valid() && commands.Contents() == []
      invariant taken == CommandsOf(chunks[..k]) && buffer.Contents() == RemainderOf(chunks[..k])
    {
      ChunkNext(chunks, k);
      LastIsAll(buffer.Contents() + chunks[k], buffer.Capacity());
      LastIsAll([] + Commands(buffer.Contents() + chunks[k]), commands.Capacity());
      var _ := buffer.AddArray(chunks[k]);
      var _ := ExtractCommands(buffer, commands);
      var received := commands.PopArray(commands.Capacity());
      taken := taken + received;
    }
    assert chunks[..|chunks|] == chunks;
    FramingOfChunks(chunks);
  }
}
