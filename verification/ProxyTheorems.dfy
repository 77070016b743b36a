/** End-to-end guarantees of the proxy decoder. */
module ProxyTheorems {
  import opened Options
  import opened ProxyLines
  import opened ProxyReducer
  import opened ProxyRebuild
  import opened ProxyStream

  /** A serialisation of events as single lines of text that `format` reads back. */
  ghost predicate Reads(format: Format, encode: ProxyEvent -> string) {
    forall e :: format.parseEvent(encode(e)) == Some(e) && Clean(encode(e))
  }

  predicate Clean(data: string) {
    data != "" && Trim(data) == data && '\n' !in data
  }

  /** The text a server sends for a list of events: one line each, followed by a blank line. */
  function Wire(events: seq<ProxyEvent>, encode: ProxyEvent -> string): string {
    if events == [] then ""
    else Wire(events[..|events| - 1], encode) + (PREFIX + encode(events[|events| - 1]) + "\n" + "\n")
  }

  function ConsumeEvents(d: Decoder, events: seq<ProxyEvent>, format: Format): Decoder {
    if events == [] then d
    else
      var before := ConsumeEvents(d, events[..|events| - 1], format);
      if before.error.Some? then before else ConsumeEvent(before, events[|events| - 1], format)
  }

  lemma FrameLines(line: string)
    requires '\n' !in line
    ensures Lines(line + "\n" + "\n") == [line, ""] && Tail(line + "\n" + "\n") == ""
  {
    NoLineFeed(line);
    SplitSnoc(line, '\n');
    SplitSnoc(line + "\n", '\n');
  }

  lemma ConsumeFrame(d: Decoder, e: ProxyEvent, format: Format, encode: ProxyEvent -> string)
    requires Reads(format, encode)
    ensures ConsumeLines(d, [PREFIX + encode(e), ""], format) ==
              if d.error.Some? then d else ConsumeEvent(d, e, format)
  {
    var line := PREFIX + encode(e);
    assert Clean(encode(e));
    assert PREFIX <= line && line[6..] == encode(e);
    assert [line, ""][..1] == [line] && [line][..0] == [];
    assert ConsumeLines(d, [line], format) == ConsumeLine(d, line, format);
  }

  lemma {:induction false} WireIsConsumed(d: Decoder, events: seq<ProxyEvent>, format: Format, encode: ProxyEvent -> string)
    requires Reads(format, encode)
    ensures Tail(Wire(events, encode)) == ""
    ensures ConsumeLines(d, Lines(Wire(events, encode)), format) == ConsumeEvents(d, events, format)
  {
    if events != [] {
      var n := |events| - 1;
      var sent, line := Wire(events[..n], encode), PREFIX + encode(events[n]);
      WireIsConsumed(d, events[..n], format, encode);
      assert Clean(encode(events[n]));
      FrameLines(line);
      ResumeFromTail(sent, line + "\n" + "\n");
      assert "" + (line + "\n" + "\n") == line + "\n" + "\n";
      ConsumeConcat(d, Lines(sent), [line, ""], format);
      ConsumeFrame(ConsumeLines(d, Lines(sent), format), events[n], format, encode);
    }
  }

  lemma ConsumeEventFolds(d: Decoder, e: ProxyEvent, format: Format)
    requires d.error.None?
    ensures var after := StepMessage(d.message, e, format.parseArguments);
            && (ConsumeEvent(d, e, format).error.None? <==> after.Some?)
            && (after.Some? ==> ConsumeEvent(d, e, format).message == after.value)
  {
  }

  lemma {:induction false} ConsumeEventsFolds(d: Decoder, events: seq<ProxyEvent>, format: Format)
    requires d.error.None?
    ensures var after := FoldMessage(d.message, events, format.parseArguments);
            && (ConsumeEvents(d, events, format).error.None? <==> after.Some?)
            && (after.Some? ==> ConsumeEvents(d, events, format).message == after.value)
  {
    if events != [] {
      var n := |events| - 1;
      ConsumeEventsFolds(d, events[..n], format);
      var before := ConsumeEvents(d, events[..n], format);
      if before.error.None? {
        ConsumeEventFolds(before, events[n], format);
      }
    }
  }

  /** Round trip through the wire: cut a message's blocks into deltas, interleave them in any way, send
      the events as text and decode it; the decoder meets no error and holds exactly those blocks.
      `StreamProxy` decodes the same from every cut of that text into chunks. */
  lemma WireRoundTrip(events: seq<ProxyEvent>, parts: seq<Part>, format: Format, encode: ProxyEvent -> string)
    requires Reads(format, encode) && Carries(events, parts)
    ensures var start := Decoder(Message(map[], "stop", None, ""), [], None);
            var d := Decoded(start, Wire(events, encode), false, format);
            && d == ConsumeEvents(start, events, format)
            && d.error.None?
            && d.message.content == map i | 0 <= i < |parts| :: Rebuilt(parts[i], format.parseArguments)
  {
    var start := Decoder(Message(map[], "stop", None, ""), [], None);
    WireIsConsumed(start, events, format, encode);
    ConsumeEventsFolds(start, events, format);
    MessageIsRebuilt(start.message, events, parts, format.parseArguments);
  }

  /** A last line that the response does not terminate is never decoded. */
  lemma UnterminatedLineIsDropped(d: Decoder, text: string, rest: string, cancelled: bool, format: Format)
    requires Tail(text) == "" && '\n' !in rest
    ensures Decoded(d, text + rest, cancelled, format) == Decoded(d, text, cancelled, format)
  {
    ResumeFromTail(text, rest);
    assert "" + rest == rest;
    NoLineFeed(rest);
    assert Lines(text) + [] == Lines(text);
  }

  /** An event that leaves the decoder as it was. */
  predicate Quiet(m: Message, e: ProxyEvent) {
    || e.Unknown?
    || (e.ToolCallEnd? && !(Slot(m, e.contentIndex).Some? && Slot(m, e.contentIndex).value.ToolCallBlock?))
  }

  /** A line that decoding would pass over: after an error, without the prefix, blank, or quiet. */
  predicate Idle(d: Decoder, line: string, format: Format) {
    || d.error.Some? || !(PREFIX <= line) || Trim(line[6..]) == ""
    || (var e := format.parseEvent(Trim(line[6..])); e.Some? && Quiet(d.message, e.value))
  }

  lemma ConsumeEventIff(d: Decoder, e: ProxyEvent, format: Format)
    requires d.error.None?
    ensures ConsumeEvent(d, e, format) == d <==> Quiet(d.message, e)
    ensures ConsumeEvent(d, e, format).error != Some("Request aborted by user")
  {
    var outcome := OutcomeOf(d.message, e, format.parseArguments);
    QuietIff(d.message, e, format.parseArguments);
    if outcome.Push? {
      assert |d.pushed + [outcome.event]| == |d.pushed| + 1;
    }
  }

  lemma QuietIff(m: Message, e: ProxyEvent, parse: Parser)
    ensures var outcome := OutcomeOf(m, e, parse);
            && (outcome.Nothing? <==> Quiet(m, e))
            && (outcome.Nothing? ==> StepMessage(m, e, parse) == Some(m))
            && (outcome.Throw? ==> outcome.error != "Request aborted by user")
  {
    if e.ToolCallEnd? && Quiet(m, e) {
      assert SetSlot(m, e.contentIndex, Slot(m, e.contentIndex)).content == m.content;
    }
  }

  lemma ConsumeLineIff(d: Decoder, line: string, format: Format)
    ensures ConsumeLine(d, line, format) == d <==> Idle(d, line, format)
    ensures d.error.None? ==> ConsumeLine(d, line, format).error != Some("Request aborted by user")
  {
    if !(d.error.Some? || !(PREFIX <= line) || Trim(line[6..]) == "") {
      var e := format.parseEvent(Trim(line[6..]));
      if e.Some? {
        ConsumeEventIff(d, e.value, format);
      }
    }
  }

  /** Exactly when nothing is lost with a last line that is not terminated: decoding had failed before
      it, or it is a line that decoding passes over. */
  lemma UnterminatedLineIsLostIff(d: Decoder, text: string, cancelled: bool, format: Format)
    ensures Decoded(d, text + "\n", cancelled, format) == Decoded(d, text, cancelled, format) <==>
              Idle(ConsumeLines(d, Lines(text), format), Tail(text), format)
  {
    SplitSnoc(text, '\n');
    var read := ConsumeLines(d, Lines(text), format);
    assert (Lines(text) + [Tail(text)])[..|Lines(text)|] == Lines(text);
    assert ConsumeLines(d, Lines(text + "\n"), format) == ConsumeLine(read, Tail(text), format);
    ConsumeLineIff(read, Tail(text), format);
  }

  /** An input on which it is: a final `done` that is not terminated never closes the stream. */
  lemma LastDoneIsLost(reason: string, usage: string, format: Format, encode: ProxyEvent -> string)
    requires Reads(format, encode)
    ensures var start := Decoder(Message(map[], "stop", None, ""), [], None);
            var text := PREFIX + encode(Done(reason, usage));
            && Decoded(start, text, false, format) == start
            && Decoded(start, text + "\n", false, format).pushed == [Finished(reason)]
  {
    var start := Decoder(Message(map[], "stop", None, ""), [], None);
    var done := Done(reason, usage);
    assert Clean(encode(done));
    OneLine(start, PREFIX + encode(done), format);
    DoneCloses(start, encode(done), reason, usage, format);
    assert [] + [Finished(reason)] == [Finished(reason)];
  }

  lemma OneLine(d: Decoder, line: string, format: Format)
    requires '\n' !in line
    ensures Lines(line) == []
    ensures ConsumeLines(d, Lines(line + "\n"), format) == ConsumeLine(d, line, format)
  {
    NoLineFeed(line);
    SplitSnoc(line, '\n');
    assert [line][..0] == [];
    assert Lines(line + "\n") == [line];
  }

  lemma DoneCloses(d: Decoder, data: string, reason: string, usage: string, format: Format)
    requires d.error.None? && Clean(data) && format.parseEvent(data) == Some(Done(reason, usage))
    ensures var after := ConsumeLine(d, PREFIX + data, format);
            after.error.None? && after.pushed == d.pushed + [Finished(reason)]
  {
    assert PREFIX <= PREFIX + data && (PREFIX + data)[6..] == data;
  }

  /** A response decoded without error closes the stream if and only if the server sent `done` or
      `error`. Otherwise the stream ends with its final result never resolved, and whoever awaits that
      result waits for ever. */
  lemma {:induction false} ClosesIffServerTerminates(d: Decoder, events: seq<ProxyEvent>, format: Format)
    requires d.error.None? && ConsumeEvents(d, events, format).error.None?
    ensures HasClosing(ConsumeEvents(d, events, format).pushed) <==>
            HasClosing(d.pushed) || (exists e :: e in events && (e.Done? || e.Error?))
  {
    if events != [] {
      var n := |events| - 1;
      ClosesIffServerTerminates(d, events[..n], format);
      ConsumeEventCloses(ConsumeEvents(d, events[..n], format), events[n], format);
      assert events == events[..n] + [events[n]];
    }
  }
}
