/** Readings as text: `append_sensor_readings` of `protocol.c`, the cursor of `cmd_readings` and the loop of `execute_commands`
    that sends a response for every part. A reading is its rendered text without the separator. */
module Readings {
  import opened CircularBuffer

  const HEADER := "READINGS "
  const SEPARATOR := "|"
  const END := ";"

  // ---- the whole line ----

  function Join(readings: seq<string>): string {
    if readings == [] then ""
    else if |readings| == 1 then readings[0]
    else readings[0] + SEPARATOR + Join(readings[1..])
  }

  /** What a reader of the responses should see. */
  function Line(readings: seq<string>): string {
    if readings == [] then "READINGS;" else HEADER + Join(readings) + END
  }

  // ---- parts ----

  /** Every reading followed by the separator. */
  function Serialized(readings: seq<string>): string {
    if readings == [] then "" else readings[0] + SEPARATOR + Serialized(readings[1..])
  }

  /** How many readings fit one after the other. */
  function Fitting(readings: seq<string>, free: nat): (k: nat)
    ensures k <= |readings|
    ensures |Serialized(readings[..k])| <= free
  {
    if readings == [] || |readings[0]| + 1 > free then 0
    else
      var k := Fitting(readings[1..], free - |readings[0]| - 1);
      assert readings[..k + 1][1..] == readings[1..][..k];
      k + 1
  }

  /** The last separator becomes the end mark. */
  function Ended(text: string): string {
    if text == "" then END else text[..|text| - 1] + END
  }

  function Head(start: nat): string {
    if start == 0 then HEADER else ""
  }

  /** The response from a reading on, and the number of readings in it. */
  function Part(readings: seq<string>, start: nat, capacity: nat): (r: (string, nat))
    requires start <= |readings|
    ensures start + r.1 <= |readings|
  {
    if |Head(start)| > capacity then ("", 0)
    else
      var k := Fitting(readings[start..], capacity - |Head(start)|);
      var text := Head(start) + Serialized(readings[start..start + k]);
      (if start + k == |readings| then Ended(text) else text, k)
  }

  /** The cursor of the command after some rounds. */
  function Cursor(readings: seq<string>, capacity: nat, rounds: nat): (cursor: nat)
    ensures cursor <= |readings|
  {
    if rounds == 0 then 0
    else
      var before := Cursor(readings, capacity, rounds - 1);
      before + Part(readings, before, capacity).1
  }

  /** The first reading fits beside the header, every other one alone. */
  predicate Fits(readings: seq<string>, capacity: nat) {
    && (readings != [] ==> |HEADER| + |readings[0]| + 1 <= capacity)
    && forall i :: 1 <= i < |readings| ==> |readings[i]| + 1 <= capacity
  }

  lemma Progress(readings: seq<string>, start: nat, capacity: nat)
    requires Fits(readings, capacity) && start < |readings|
    ensures Part(readings, start, capacity).1 > 0
  {
    assert readings[start..][0] == readings[start];
  }

  /** Nothing gets past a reading that does not fit. */
  lemma {:induction false} FittingStops(readings: seq<string>, free: nat, i: nat)
    requires i < |readings| && |readings[i]| + 1 > free
    ensures Fitting(readings, free) <= i
    decreases i
  {
    if i > 0 && |readings[0]| + 1 <= free {
      FittingStops(readings[1..], free - |readings[0]| - 1, i - 1);
    }
  }

  lemma PartStops(readings: seq<string>, start: nat, capacity: nat, i: nat)
    requires start <= i < |readings| && |readings[i]| + 1 > capacity - |Head(i)|
    ensures start + Part(readings, start, capacity).1 <= i
  {
    hide Fitting, Serialized, Ended;
    if |Head(start)| <= capacity {
      assert readings[start..][i - start] == readings[i];
      FittingStops(readings[start..], capacity - |Head(start)|, i - start);
    }
  }

  lemma {:induction false} CursorStops(readings: seq<string>, capacity: nat, i: nat, rounds: nat)
    requires i < |readings| && |readings[i]| + 1 > capacity - |Head(i)|
    ensures Cursor(readings, capacity, rounds) <= i
  {
    hide Part, Head;
    if rounds > 0 {
      CursorStops(readings, capacity, i, rounds - 1);
      PartStops(readings, Cursor(readings, capacity, rounds - 1), capacity, i);
    }
  }

  lemma {:induction false} CursorAdvances(readings: seq<string>, capacity: nat, rounds: nat)
    requires Fits(readings, capacity) && rounds <= |readings|
    ensures Cursor(readings, capacity, rounds) >= rounds
  {
    hide Part, Fits;
    if rounds > 0 {
      var start := Cursor(readings, capacity, rounds - 1);
      CursorAdvances(readings, capacity, rounds - 1);
      if start < |readings| {
        Progress(readings, start, capacity);
      }
    }
  }

  /** The loop ends if and only if the readings fit. */
  lemma EndsIfFits(readings: seq<string>, capacity: nat)
    ensures (exists rounds: nat :: Cursor(readings, capacity, rounds) == |readings|) <==> Fits(readings, capacity)
  {
    if Fits(readings, capacity) {
      CursorAdvances(readings, capacity, |readings|);
      assert Cursor(readings, capacity, |readings|) == |readings|;
    } else {
      var i: nat :| i < |readings| && |readings[i]| + 1 > capacity - |Head(i)|;
      forall rounds: nat
        ensures Cursor(readings, capacity, rounds) != |readings|
      {
        CursorStops(readings, capacity, i, rounds);
      }
    }
  }

  /** All responses from a reading on. */
  function Responses(readings: seq<string>, start: nat, capacity: nat): string
    requires Fits(readings, capacity) && start <= |readings|
    decreases |readings| - start
  {
    var (text, k) := Part(readings, start, capacity);
    if start + k == |readings| then text
    else
      Progress(readings, start, capacity);
      text + Responses(readings, start + k, capacity)
  }

  lemma {:induction false} SerializedAppend(a: seq<string>, b: seq<string>)
    ensures Serialized(a + b) == Serialized(a) + Serialized(b)
  {
    if a == [] {
      assert a + b == b;
    } else {
      assert (a + b)[1..] == a[1..] + b;
      SerializedAppend(a[1..], b);
    }
  }

  lemma PartIs(readings: seq<string>, start: nat, capacity: nat)
    requires start <= |readings| && |Head(start)| <= capacity
    ensures var (text, k) := Part(readings, start, capacity);
            var whole := Head(start) + Serialized(readings[start..start + k]);
            text == if start + k == |readings| then Ended(whole) else whole
  {
    hide Fitting, Serialized, Ended, Head;
  }

  lemma {:induction false} ResponsesAreRest(readings: seq<string>, start: nat, capacity: nat)
    requires Fits(readings, capacity) && start <= |readings| && (start == |readings| ==> start == 0 && |HEADER| <= capacity)
    ensures Responses(readings, start, capacity) == Ended(Head(start) + Serialized(readings[start..]))
    decreases |readings| - start
  {
    hide Fits, Part, Head, Serialized, Ended;
    var (text, k) := Part(readings, start, capacity);
    HeadFits(readings, start, capacity);
    PartIs(readings, start, capacity);
    if start + k == |readings| {
      assert readings[start..start + k] == readings[start..];
    } else {
      Progress(readings, start, capacity);
      ResponsesAreRest(readings, start + k, capacity);
      RestSplits(readings, start, k);
    }
  }

  lemma RestSplits(readings: seq<string>, start: nat, k: nat)
    requires k > 0 && start + k < |readings|
    ensures Ended(Head(start) + Serialized(readings[start..]))
            == Head(start) + Serialized(readings[start..start + k]) + Ended(Head(start + k) + Serialized(readings[start + k..]))
  {
    var a, b := readings[start..start + k], readings[start + k..];
    assert readings[start..] == a + b;
    SerializedAppend(a, b);
    hide Serialized;
    assert Serialized(b) != "" by {
      SerializedIsJoined(b);
    }
    assert Head(start + k) + Serialized(b) == Serialized(b);
    assert Head(start) + (Serialized(a) + Serialized(b)) == Head(start) + Serialized(a) + Serialized(b);
    EndedAppend(Head(start) + Serialized(a), Serialized(b));
  }

  lemma HeadFits(readings: seq<string>, start: nat, capacity: nat)
    requires Fits(readings, capacity) && start <= |readings| && (start == |readings| ==> start == 0 && |HEADER| <= capacity)
    ensures |Head(start)| <= capacity
  {
  }

  lemma EndedAppend(a: string, b: string)
    requires b != ""
    ensures Ended(a + b) == a + Ended(b)
  {
  }

  lemma {:induction false} SerializedIsJoined(readings: seq<string>)
    requires readings != []
    ensures Serialized(readings) == Join(readings) + SEPARATOR
  {
    if |readings| > 1 {
      SerializedIsJoined(readings[1..]);
    }
  }

  /** Sent in parts, the readings come out exactly as in one line, each once and in order. */
  lemma PartsMakeTheLine(readings: seq<string>, capacity: nat)
    requires Fits(readings, capacity) && |HEADER| <= capacity
    ensures Responses(readings, 0, capacity) == Line(readings)
  {
    ResponsesAreRest(readings, 0, capacity);
    assert readings[0..] == readings;
    if readings != [] {
      SerializedIsJoined(readings);
      EndedAppend(HEADER, Serialized(readings));
    }
  }

  // ---- the source's loops ----

  /** `serialize_sensor_readings`: as many readings as fit whole. */
  method SerializeReadings(readings: Ring<string>, start: nat, message: Ring<char>) returns (count: nat)
    requires readings.Valid() && message.Valid() && !message.wrap && start <= |readings.Contents()|
    modifies message, message.storage
    ensures message.Valid()
    ensures var rest := readings.Contents()[start..];
            && count == Fitting(rest, message.Capacity() - |old(message.Contents())|)
            && message.Contents() == old(message.Contents()) + Serialized(rest[..count])
  {
    hide Last, Serialized, Fitting, Elements, Consistent;
    ghost var rest, before := readings.Contents()[start..], message.Contents();
    ContentsFit(message);
    Nothing(rest);
    assert before + [] == before;
    count := 0;
    var serializing := true;
    while serializing
      invariant message.Valid() && readings.Valid() && readings.Contents() == old(readings.Contents())
      invariant count <= |rest| && message.Contents() == before + Serialized(rest[..count])
      invariant |message.Contents()| <= message.Capacity()
      invariant var free := message.Capacity() - |message.Contents()|;
                && count + Fitting(rest[count..], free) == Fitting(rest, message.Capacity() - |before|)
                && (!serializing ==> Fitting(rest[count..], free) == 0)
      decreases |rest| - count, serializing
    {
      var reading;
      serializing, reading := readings.Peek(start + count);
      ghost var free := message.Capacity() - |message.Contents()|;
      OneMore(rest, count, free, before, message.Capacity());
      if serializing {
        serializing := message.AddArray(reading + SEPARATOR);
        if serializing {
          count := count + 1;
        }
      }
    }
  }

  lemma Nothing(readings: seq<string>)
    ensures readings[0..] == readings && Serialized(readings[..0]) == ""
  {
  }

  lemma SerializedNext(readings: seq<string>, count: nat)
    requires count < |readings|
    ensures Serialized(readings[..count + 1]) == Serialized(readings[..count]) + (readings[count] + SEPARATOR)
  {
    SerializedAppend(readings[..count], [readings[count]]);
    assert readings[..count] + [readings[count]] == readings[..count + 1];
    assert [readings[count]][1..] == [];
    assert Serialized([readings[count]]) == readings[count] + SEPARATOR;
  }

  /** One more round of serializing. */
  lemma OneMore(readings: seq<string>, count: nat, free: nat, before: string, capacity: nat)
    requires count <= |readings|
    ensures count == |readings| || (count < |readings| && |readings[count]| + 1 > free) ==> Fitting(readings[count..], free) == 0
    ensures count < |readings| ==>
              var now := before + Serialized(readings[..count]);
              var next := before + Serialized(readings[..count + 1]);
              now + (readings[count] + SEPARATOR) == next && (|next| <= capacity ==> Last(next, capacity) == next)
    ensures count < |readings| && |readings[count]| + 1 <= free ==>
              Fitting(readings[count..], free) == 1 + Fitting(readings[count + 1..], free - |readings[count]| - 1)
  {
    if count < |readings| {
      assert readings[count..][0] == readings[count] && readings[count..][1..] == readings[count + 1..];
      SerializedNext(readings, count);
    }
  }

  /** Every reading renders to something. */
  predicate Rendered(readings: seq<string>) {
    forall i :: 0 <= i < |readings| ==> readings[i] != ""
  }

  lemma SerializedLength(readings: seq<string>)
    requires Rendered(readings) && readings != []
    ensures |Serialized(readings)| >= 2
  {
  }

  /** `append_sensor_readings`. The last character is dropped from the end of the message, which must not become empty by it. */
  method AppendReadings(readings: Ring<string>, start: nat, message: Ring<char>, split: bool) returns (count: nat)
    requires readings.Valid() && message.Valid() && !message.wrap && start <= |readings.Contents()| && Rendered(readings.Contents())
    requires start == 0 || |message.Contents()| > 1 || (split && start < |readings.Contents()|)
    modifies message, message.storage
    ensures message.Valid()
    ensures var before, free := old(message.Contents()) + Head(start), message.Capacity() - |old(message.Contents())|;
            var rest := readings.Contents()[start..];
            if |Head(start)| > free then count == 0 && message.Contents() == old(message.Contents())
            else
              && count == Fitting(rest, free - |Head(start)|)
              && var whole := before + Serialized(rest[..count]);
                 message.Contents() == if !split || count == |rest| then Ended(whole) else whole
  {
    hide Last, Fitting, Serialized, Elements, Consistent;
    ghost var before, rest := message.Contents(), readings.Contents()[start..];
    ContentsFit(message);
    assert before + [] == before;
    if start == 0 {
      var added := message.AddArray(HEADER);
      if !added {
        return 0;
      }
      LastIsAll(before + HEADER, message.Capacity());
    }
    count := SerializeReadings(readings, start, message);
    if count > 0 {
      SerializedLength(rest[..count]);
    }
    var size := readings.Size();
    if !split || start + count == size {
      End(message);
    }
  }

  /** The last character becomes the end mark. */
  method End(message: Ring<char>)
    requires message.Valid() && |message.Contents()| > 1
    modifies message, message.storage
    ensures message.Valid() && message.Contents() == Ended(old(message.Contents()))
  {
    hide Elements, Last, Consistent;
    ContentsFit(message);
    ghost var whole := message.Contents();
    var _ := message.DropFromEnd(1);
    LastIsAll(whole[..|whole| - 1] + [END[0]], message.Capacity());
    var _ := message.Add(END[0]);
    assert [END[0]] == END;
  }

  /** A READINGS command executed in parts: the loop of `execute_commands` around `cmd_readings`. */
  method Respond(readings: Ring<string>, clear: bool, message: Ring<char>) returns (responses: seq<string>)
    requires readings.Valid() && message.Valid() && !message.wrap && Rendered(readings.Contents())
    requires Fits(readings.Contents(), message.Capacity()) && |HEADER| <= message.Capacity()
    modifies readings, readings.storage, message, message.storage
    ensures readings.Valid() && readings.Contents() == if clear then [] else old(readings.Contents())
    ensures Flatten(responses) == Line(readings.Contents())
  {
    hide Fits, Rendered, Elements, Consistent, Line;
    if clear {
      readings.Clear("");
      NothingFits(message.storage.Length);
    }
    responses := RespondInParts(readings, message);
  }

  method RespondInParts(readings: Ring<string>, message: Ring<char>) returns (responses: seq<string>)
    requires readings.Valid() && message.Valid() && !message.wrap && Rendered(readings.Contents())
    requires Fits(readings.Contents(), message.Capacity()) && |HEADER| <= message.Capacity()
    modifies message, message.storage
    ensures Flatten(responses) == Line(readings.Contents())
  {
    hide Fitting, Fits, Rendered, Flatten, Part, Serialized, Ended, Elements, Consistent, Responses, Line;
    ghost var all, capacity := readings.Contents(), message.Capacity();
    PartsMakeTheLine(all, capacity);
    responses := [];
    var cursor := 0;
    var executed := false;
    NothingSent(Responses(all, 0, capacity));
    while !executed
      invariant message.Valid() && readings.Valid() && readings.Contents() == all && cursor <= |all|
      invariant !executed ==> cursor == 0 || cursor < |all|
      invariant executed ==> Flatten(responses) == Line(all)
      invariant !executed ==> Flatten(responses) + Responses(all, cursor, capacity) == Line(all)
      decreases |all| - cursor, !executed
    {
      var text, count := ExecutePart(readings, cursor, message);
      ResponsesStep(Flatten(responses), all, cursor, capacity, text, count);
      FlattenAppend(responses, text);
      responses := responses + [text];
      cursor := cursor + count;
      var size := readings.Size();
      executed := cursor == size;
    }
  }

  lemma NothingSent(text: string)
    ensures Flatten([]) + text == text
  {
  }

  lemma NothingFits(capacity: nat)
    ensures Fits([], capacity) && Rendered([])
  {
  }

  lemma FlattenAppend(chunks: seq<string>, chunk: string)
    ensures Flatten(chunks + [chunk]) == Flatten(chunks) + chunk
  {
    assert (chunks + [chunk])[..|chunks|] == chunks;
  }

  /** One part more has been sent. */
  lemma ResponsesStep(sent: string, readings: seq<string>, start: nat, capacity: nat, text: string, k: nat)
    requires Fits(readings, capacity) && start <= |readings| && (text, k) == Part(readings, start, capacity)
    requires sent + Responses(readings, start, capacity) == Line(readings)
    ensures start < |readings| ==> k > 0
    ensures start + k == |readings| ==> sent + text == Line(readings)
    ensures start + k < |readings| ==> sent + text + Responses(readings, start + k, capacity) == Line(readings)
  {
    hide Part, Line;
    if start < |readings| {
      Progress(readings, start, capacity);
    }
    if start + k < |readings| {
      assert sent + (text + Responses(readings, start + k, capacity)) == sent + text + Responses(readings, start + k, capacity);
    }
  }

  /** `cmd_readings` with the cleared response buffer, and what is sent of it. */
  method ExecutePart(readings: Ring<string>, start: nat, message: Ring<char>) returns (text: string, count: nat)
    requires readings.Valid() && message.Valid() && !message.wrap && Rendered(readings.Contents())
    requires start == 0 || start < |readings.Contents()|
    modifies message, message.storage
    ensures message.Valid() && (text, count) == Part(readings.Contents(), start, message.Capacity())
  {
    hide Fitting, Serialized, Ended, Elements, Consistent;
    ghost var all := readings.Contents();
    message.Clear('\0');
    count := AppendReadings(readings, start, message, true);
    assert [] + Head(start) == Head(start);
    assert all[start..][..count] == all[start..start + count];
    ContentsFit(message);
    text := message.PeekArray(0, message.storage.Length);
    assert text == message.Contents();
  }
}
