/** Decoding a proxy response: the read loop, the incremental line framing and the reducer together. */
module ProxyStream {
  import opened Options
  import opened ProxyLines
  import opened ProxyReducer

  /** `JSON.parse` of one event, with `None` for a throw, and the streaming parser of tool arguments. */
  datatype Format = Format(parseEvent: string -> Option<ProxyEvent>, parseArguments: Parser)

  datatype Read = Read(aborted: bool, chunk: string)

  /** The message so far, everything pushed, and the error that stopped decoding. */
  datatype Decoder = Decoder(message: Message, pushed: seq<MessageEvent>, error: Option<string>)

  const PREFIX := "data: "

  function ConsumeEvent(d: Decoder, e: ProxyEvent, format: Format): Decoder {
    match OutcomeOf(d.message, e, format.parseArguments)
    case Throw(error) => d.(error := Some(error))
    case Push(event) =>
      d.(message := StepMessage(d.message, e, format.parseArguments).value, pushed := d.pushed + [event])
    case Nothing => d.(message := StepMessage(d.message, e, format.parseArguments).value)
  }

  function ConsumeLine(d: Decoder, line: string, format: Format): Decoder {
    if d.error.Some? || !(PREFIX <= line) then d
    else
      var data := Trim(line[6..]);
      if data == "" then d
      else
        match format.parseEvent(data)
        case None => d.(error := Some("Unexpected token in JSON"))
        case Some(e) => ConsumeEvent(d, e, format)
  }

  function ConsumeLines(d: Decoder, lines: seq<string>, format: Format): Decoder {
    if lines == [] then d
    else ConsumeLine(ConsumeLines(d, lines[..|lines| - 1], format), lines[|lines| - 1], format)
  }

  lemma {:induction false} ConsumeConcat(d: Decoder, a: seq<string>, b: seq<string>, format: Format)
    ensures ConsumeLines(d, a + b, format) == ConsumeLines(ConsumeLines(d, a, format), b, format)
  {
    if b == [] {
      assert a + b == a;
    } else {
      ConsumeConcat(d, a, b[..|b| - 1], format);
      assert (a + b)[..|a + b| - 1] == a + b[..|b| - 1];
    }
  }

  lemma {:induction false} ErrorStays(d: Decoder, lines: seq<string>, format: Format)
    requires d.error.Some?
    ensures ConsumeLines(d, lines, format) == d
  {
    if lines != [] {
      ErrorStays(d, lines[..|lines| - 1], format);
    }
  }

  /** The chunks read before the signal is first seen aborted. */
  function Accepted(incoming: seq<Read>): seq<string> {
    if incoming == [] || incoming[0].aborted then [] else [incoming[0].chunk] + Accepted(incoming[1..])
  }

  predicate AnyAborted(incoming: seq<Read>) {
    exists r :: r in incoming && r.aborted
  }

  /** What decoding a response comes to, as a function of the accepted text and of nothing else about
      how it was cut. */
  function Decoded(d: Decoder, text: string, cancelled: bool, format: Format): Decoder {
    var read := ConsumeLines(d, Lines(text), format);
    if read.error.None? && cancelled then read.(error := Some("Request aborted by user")) else read
  }

  /** The message after the failure path of the reader. */
  function WithFailure(m: Message, aborted: bool, error: string): Message {
    m.(stopReason := if aborted then "aborted" else "error", errorMessage := Some(error))
  }

  predicate Closing(e: MessageEvent) {
    e.Finished? || e.Failed?
  }

  /** The last event delivered was a closing one. */
  predicate Complete(seen: seq<MessageEvent>) {
    seen != [] && Closing(seen[|seen| - 1])
  }

  /** The event stream delivers up to the first closing event and drops the rest. */
  function Delivered(pushed: seq<MessageEvent>): seq<MessageEvent> {
    if pushed == [] then []
    else
      var before := Delivered(pushed[..|pushed| - 1]);
      if Complete(before) then before else before + [pushed[|pushed| - 1]]
  }

  lemma DeliveredSnoc(pushed: seq<MessageEvent>, event: MessageEvent)
    ensures var seen := Delivered(pushed);
            Delivered(pushed + [event]) == if Complete(seen) then seen else seen + [event]
  {
    assert (pushed + [event])[..|pushed|] == pushed;
  }

  /** The event stream towards the consumer. `pushed` is what came before the stream was ended from
      outside. */
  class EventStream {
    var delivered: seq<MessageEvent>
    var closed: bool
    var resolved: bool
    ghost var pushed: seq<MessageEvent>

    ghost predicate Valid()
      reads this
    {
      && delivered == Delivered(pushed)
      && resolved == Complete(delivered)
      && (resolved ==> closed)
    }

    constructor ()
      ensures Valid() && !closed && pushed == []
    {
      delivered, closed, resolved, pushed := [], false, false, [];
    }

    ghost method RecordPush(event: MessageEvent)
      requires Valid()
      modifies `pushed
      ensures pushed == if closed && !resolved then old(pushed) else old(pushed) + [event]
      ensures Delivered(pushed) == if closed || resolved then delivered else delivered + [event]
    {
      DeliveredSnoc(pushed, event);
      if !closed || resolved {
        pushed := pushed + [event];
      }
    }

    method Deliver(event: MessageEvent)
      modifies `closed, `resolved, `delivered
      ensures delivered == old(delivered) + [event] && Complete(delivered) == Closing(event)
      ensures closed == (old(closed) || Closing(event)) && resolved == (old(resolved) || Closing(event))
    {
      if Closing(event) {
        closed, resolved := true, true;
      }
      delivered := delivered + [event];
    }

    method Push(event: MessageEvent)
      requires Valid()
      modifies this
      ensures Valid()
      ensures old(closed) ==> closed && delivered == old(delivered) && resolved == old(resolved)
      ensures old(closed && !resolved) ==> pushed == old(pushed)
      ensures old(closed ==> resolved) ==> pushed == old(pushed) + [event] && (closed ==> resolved)
    {
      RecordPush(event);
      if !closed {
        Deliver(event);
      }
    }

    method End()
      requires Valid()
      modifies this
      ensures Valid() && closed && pushed == old(pushed)
    {
      closed := true;
    }
  }

  /** The message object that all pushed events share. */
  class PartialMessage {
    var content: map<int, Block>
    var stopReason: string
    var errorMessage: Option<string>
    var usage: string

    function Value(): Message
      reads this
    {
      Message(content, stopReason, errorMessage, usage)
    }

    constructor ()
      ensures Value() == Message(map[], "stop", None, "")
    {
      content, stopReason, errorMessage, usage := map[], "stop", None, "";
    }

    /** Extends the block of a delta, which must be there and of the right kind. */
    method ProcessDelta(e: ProxyEvent, parse: Parser) returns (outcome: Outcome)
      requires e.TextDelta? || e.ThinkingDelta? || e.ToolCallDelta?
      modifies this
      ensures outcome == OutcomeOf(old(Value()), e, parse)
      ensures Value() == if outcome.Throw? then old(Value()) else StepMessage(old(Value()), e, parse).value
    {
      outcome := Throw("Received delta or end for content of another kind");
      match e {
        case TextDelta(i, delta) =>
          if i in content && content[i].TextBlock? {
            content := content[i := content[i].(text := content[i].text + delta)];
            outcome := Push(BlockDelta(i, delta));
          }
        case ThinkingDelta(i, delta) =>
          if i in content && content[i].ThinkingBlock? {
            content := content[i := content[i].(thinking := content[i].thinking + delta)];
            outcome := Push(BlockDelta(i, delta));
          }
        case ToolCallDelta(i, delta) =>
          if i in content && content[i].ToolCallBlock? {
            var json := ExtendJson(content[i].partialJson, delta);
            content := content[i := content[i].(arguments := Arguments(parse, json), partialJson := Some(json))];
            outcome := Push(BlockDelta(i, delta));
          }
      }
    }

    /** Closes the block of an end event. Only the end of a tool call is quiet about a missing block. */
    method ProcessEnd(e: ProxyEvent, parse: Parser) returns (outcome: Outcome)
      requires e.TextEnd? || e.ThinkingEnd? || e.ToolCallEnd?
      modifies this
      ensures outcome == OutcomeOf(old(Value()), e, parse)
      ensures Value() == if outcome.Throw? then old(Value()) else StepMessage(old(Value()), e, parse).value
    {
      outcome := Throw("Received delta or end for content of another kind");
      match e {
        case TextEnd(i, signature) =>
          if i in content && content[i].TextBlock? {
            content := content[i := content[i].(textSignature := signature)];
            outcome := Push(TextEnded(i, content[i].text));
          }
        case ThinkingEnd(i, signature) =>
          if i in content && content[i].ThinkingBlock? {
            content := content[i := content[i].(thinkingSignature := signature)];
            outcome := Push(ThinkingEnded(i, content[i].thinking));
          }
        case ToolCallEnd(i) =>
          outcome := Nothing;
          if i in content && content[i].ToolCallBlock? {
            content := content[i := content[i].(partialJson := None)];
            outcome := Push(ToolCallEnded(i, content[i]));
          } else {
            assert SetSlot(Value(), i, Slot(Value(), i)).content == content;
          }
      }
    }

    method ProcessProxyEvent(e: ProxyEvent, parse: Parser) returns (outcome: Outcome)
      modifies this
      ensures outcome == OutcomeOf(old(Value()), e, parse)
      ensures Value() == if outcome.Throw? then old(Value()) else StepMessage(old(Value()), e, parse).value
    {
      match e {
        case Start =>
          outcome := Push(Started);
        case TextStart(i) =>
          content := content[i := TextBlock("", None)];
          outcome := Push(BlockStarted(i));
        case ThinkingStart(i) =>
          content := content[i := ThinkingBlock("", None)];
          outcome := Push(BlockStarted(i));
        case ToolCallStart(i, id, name) =>
          content := content[i := ToolCallBlock(id, name, "{}", Some(""))];
          outcome := Push(BlockStarted(i));
        case TextDelta(_, _) =>
          outcome := ProcessDelta(e, parse);
        case ThinkingDelta(_, _) =>
          outcome := ProcessDelta(e, parse);
        case ToolCallDelta(_, _) =>
          outcome := ProcessDelta(e, parse);
        case TextEnd(_, _) =>
          outcome := ProcessEnd(e, parse);
        case ThinkingEnd(_, _) =>
          outcome := ProcessEnd(e, parse);
        case ToolCallEnd(_) =>
          outcome := ProcessEnd(e, parse);
        case Done(reason, u) =>
          stopReason, usage := reason, u;
          outcome := Push(Finished(reason));
        case Error(reason, message, u) =>
          stopReason, errorMessage, usage := reason, message, u;
          outcome := Push(Failed(reason));
        case Unknown(_) =>
          outcome := Nothing;
      }
    }
  }

  ghost function Now(partial: PartialMessage, stream: EventStream, error: Option<string>): Decoder
    reads partial, stream
  {
    Decoder(partial.Value(), stream.pushed, error)
  }

  /** Processes the complete lines of one chunk, stopping at the first that throws. */
  method ProcessLines(lines: seq<string>, format: Format, partial: PartialMessage, stream: EventStream)
    returns (error: Option<string>)
    requires stream.Valid() && (stream.closed ==> stream.resolved)
    modifies partial, stream
    ensures stream.Valid() && (stream.closed ==> stream.resolved)
    ensures Now(partial, stream, error) == ConsumeLines(old(Now(partial, stream, None)), lines, format)
  {
    error := None;
    var k := 0;
    while k < |lines| && error.None?
      invariant k <= |lines| && stream.Valid() && (stream.closed ==> stream.resolved)
      invariant Now(partial, stream, error) == ConsumeLines(old(Now(partial, stream, None)), lines[..k], format)
    {
      ghost var before := Now(partial, stream, error);
      error := ProcessLine(lines[k], format, partial, stream);
      assert lines[..k + 1][..k] == lines[..k];
      k := k + 1;
    }
    ghost var now := Now(partial, stream, error);
    assert lines == lines[..k] + lines[k..];
    ConsumeConcat(old(Now(partial, stream, None)), lines[..k], lines[k..], format);
    if error.Some? {
      ErrorStays(now, lines[k..], format);
    }
  }

  method ProcessLine(line: string, format: Format, partial: PartialMessage, stream: EventStream)
    returns (error: Option<string>)
    requires stream.Valid() && (stream.closed ==> stream.resolved)
    modifies partial, stream
    ensures stream.Valid() && (stream.closed ==> stream.resolved)
    ensures Now(partial, stream, error) == ConsumeLine(old(Now(partial, stream, None)), line, format)
  {
    error := None;
    if PREFIX <= line {
      var data := Trim(line[6..]);
      if |data| > 0 {
        match format.parseEvent(data) {
          case None =>
            error := Some("Unexpected token in JSON");
          case Some(e) =>
            var outcome := partial.ProcessProxyEvent(e, format.parseArguments);
            match outcome {
              case Throw(message) => error := Some(message);
              case Push(event) => stream.Push(event);
              case Nothing =>
            }
        }
      }
    }
  }

  lemma AcceptedOne(r: Read)
    ensures Accepted([r]) == if r.aborted then [] else [r.chunk]
  {
    assert [r][1..] == [];
  }

  lemma AbortedSnoc(incoming: seq<Read>, k: nat)
    requires k < |incoming| && !AnyAborted(incoming[..k])
    ensures AnyAborted(incoming[..k + 1]) == incoming[k].aborted
  {
    assert incoming[..k + 1] == incoming[..k] + [incoming[k]];
    assert incoming[k] in incoming[..k + 1];
  }

  lemma AcceptedSnoc(incoming: seq<Read>, k: nat)
    requires k < |incoming| && !AnyAborted(incoming[..k])
    ensures Accepted(incoming[..k + 1]) == Accepted(incoming[..k]) + (if incoming[k].aborted then [] else [incoming[k].chunk])
    ensures incoming[k].aborted ==> Accepted(incoming) == Accepted(incoming[..k])
  {
    AcceptedUpTo(incoming, k);
    var upTo := incoming[..k + 1];
    assert upTo[..k] == incoming[..k] && upTo[k..] == [incoming[k]];
    AcceptedUpTo(upTo, k);
    AcceptedOne(incoming[k]);
    if incoming[k].aborted {
      assert Accepted(incoming[k..]) == [];
    }
  }

  lemma {:induction false} AcceptedUpTo(incoming: seq<Read>, k: nat)
    requires k <= |incoming| && !AnyAborted(incoming[..k])
    ensures Accepted(incoming) == Accepted(incoming[..k]) + Accepted(incoming[k..])
  {
    if k == 0 {
      assert incoming[0..] == incoming && incoming[..0] == [];
    } else {
      assert incoming[..k][0] in incoming[..k];
      assert incoming[1..][..k - 1] == incoming[..k][1..] && incoming[1..][k - 1..] == incoming[k..];
      assert forall r :: r in incoming[1..][..k - 1] ==> r in incoming[..k];
      AcceptedUpTo(incoming[1..], k - 1);
    }
  }

  lemma JoinSnoc(chunks: seq<string>, chunk: string)
    ensures Join(chunks + [chunk]) == Join(chunks) + chunk
  {
    assert (chunks + [chunk])[..|chunks|] == chunks;
  }

  lemma {:induction false} JoinConcat(a: seq<string>, b: seq<string>)
    ensures Join(a + b) == Join(a) + Join(b)
  {
    if b == [] {
      assert a + b == a;
    } else {
      JoinConcat(a, b[..|b| - 1]);
      assert (a + b)[..|a + b| - 1] == a + b[..|b| - 1];
    }
  }

  /** An error met in some text is the outcome of every longer text. */
  lemma ErrorIsFinal(d: Decoder, text: string, more: string, format: Format)
    requires ConsumeLines(d, Lines(text), format).error.Some?
    ensures ConsumeLines(d, Lines(text + more), format) == ConsumeLines(d, Lines(text), format)
  {
    ResumeFromTail(text, more);
    ConsumeConcat(d, Lines(text), Lines(Tail(text) + more), format);
    ErrorStays(ConsumeLines(d, Lines(text), format), Lines(Tail(text) + more), format);
  }

  lemma ChunkContinues(d: Decoder, text: string, chunk: string, format: Format)
    ensures ConsumeLines(d, Lines(text + chunk), format)
         == ConsumeLines(ConsumeLines(d, Lines(text), format), Lines(Tail(text) + chunk), format)
    ensures Tail(text + chunk) == Tail(Tail(text) + chunk)
  {
    ResumeFromTail(text, chunk);
    ConsumeConcat(d, Lines(text), Lines(Tail(text) + chunk), format);
  }

  lemma ErrorSettles(d: Decoder, incoming: seq<Read>, k: nat, format: Format)
    requires k <= |incoming| && !AnyAborted(incoming[..k])
    requires ConsumeLines(d, Lines(Join(Accepted(incoming[..k]))), format).error.Some?
    ensures Decoded(d, Join(Accepted(incoming)), AnyAborted(incoming), format)
         == ConsumeLines(d, Lines(Join(Accepted(incoming[..k]))), format)
  {
    AcceptedUpTo(incoming, k);
    JoinConcat(Accepted(incoming[..k]), Accepted(incoming[k..]));
    ErrorIsFinal(d, Join(Accepted(incoming[..k])), Join(Accepted(incoming[k..])), format);
  }

  /** Takes in one chunk: the lines it completes are processed, the rest waits in the buffer. */
  method ReadChunk(chunk: string, buffer: string, ghost d: Decoder, ghost text: string, format: Format,
                   partial: PartialMessage, stream: EventStream)
    returns (rest: string, error: Option<string>)
    requires stream.Valid() && (stream.closed ==> stream.resolved) && buffer == Tail(text)
    requires Now(partial, stream, None) == ConsumeLines(d, Lines(text), format)
    modifies partial, stream
    ensures stream.Valid() && (stream.closed ==> stream.resolved) && rest == Tail(text + chunk)
    ensures Now(partial, stream, error) == ConsumeLines(d, Lines(text + chunk), format)
  {
    var pieces := Split(buffer + chunk);
    ChunkContinues(d, text, chunk, format);
    rest := pieces[|pieces| - 1];
    error := ProcessLines(pieces[..|pieces| - 1], format, partial, stream);
  }

  /** Reads until the response ends, the signal is seen aborted or a line throws. */
  method ReadAll(incoming: seq<Read>, format: Format, partial: PartialMessage, stream: EventStream)
    returns (error: Option<string>)
    requires stream.Valid() && !stream.closed
    modifies partial, stream
    ensures stream.Valid() && (stream.closed ==> stream.resolved)
    ensures Now(partial, stream, error)
         == Decoded(old(Now(partial, stream, None)), Join(Accepted(incoming)), AnyAborted(incoming), format)
  {
    ghost var d0 := Now(partial, stream, None);
    var buffer := "";
    ghost var text := "";
    error := None;
    var k := 0;
    while k < |incoming| && error.None?
      invariant k <= |incoming| && stream.Valid() && (stream.closed ==> stream.resolved)
      invariant error.None? ==>
                  !AnyAborted(incoming[..k]) && text == Join(Accepted(incoming[..k])) && buffer == Tail(text)
                  && Now(partial, stream, error) == ConsumeLines(d0, Lines(text), format)
      invariant error.Some? ==>
                  Now(partial, stream, error) == Decoded(d0, Join(Accepted(incoming)), AnyAborted(incoming), format)
    {
      AcceptedSnoc(incoming, k);
      AbortedSnoc(incoming, k);
      if incoming[k].aborted {
        error := Some("Request aborted by user");
        assert incoming[k] in incoming;
      } else {
        JoinSnoc(Accepted(incoming[..k]), incoming[k].chunk);
        buffer, error := ReadChunk(incoming[k].chunk, buffer, d0, text, format, partial, stream);
        text := text + incoming[k].chunk;
        if error.Some? {
          ErrorSettles(d0, incoming, k + 1, format);
        }
      }
      k := k + 1;
    }
    if error.None? {
      assert incoming[..k] == incoming;
    }
  }

  // ---------------------------------------------------------------- whether the result resolves

  predicate HasClosing(pushed: seq<MessageEvent>) {
    exists e :: e in pushed && Closing(e)
  }

  /** The consumer sees the pushed events up to and including the first closing one, and only those. */
  lemma {:induction false} DeliveredIsPrefix(pushed: seq<MessageEvent>)
    ensures Delivered(pushed) <= pushed
    ensures forall k :: 0 <= k < |Delivered(pushed)| - 1 ==> !Closing(Delivered(pushed)[k])
    ensures var seen := Delivered(pushed);
            seen == pushed || Complete(seen)
  {
    if pushed != [] {
      var n := |pushed| - 1;
      DeliveredIsPrefix(pushed[..n]);
      assert pushed == pushed[..n] + [pushed[n]];
      if Delivered(pushed[..n]) != pushed[..n] {
        assert Delivered(pushed) == Delivered(pushed[..n]);
      }
    }
  }

  /** The stream's final result resolves if and only if a closing event was pushed at all. */
  lemma ResolvesIffClosed(pushed: seq<MessageEvent>)
    ensures var seen := Delivered(pushed);
            Complete(seen) <==> HasClosing(pushed)
  {
    DeliveredIsPrefix(pushed);
    var seen := Delivered(pushed);
    if Complete(seen) {
      assert seen[|seen| - 1] == pushed[|seen| - 1];
      assert pushed[|seen| - 1] in pushed;
    }
  }

  lemma ConsumeEventCloses(d: Decoder, e: ProxyEvent, format: Format)
    requires d.error.None? && ConsumeEvent(d, e, format).error.None?
    ensures var after := ConsumeEvent(d, e, format).pushed;
            HasClosing(after) <==> HasClosing(d.pushed) || e.Done? || e.Error?
  {
    var outcome := OutcomeOf(d.message, e, format.parseArguments);
    if outcome.Push? {
      assert outcome.event in d.pushed + [outcome.event];
      assert forall x :: x in d.pushed ==> x in d.pushed + [outcome.event];
    }
  }

  /** A line with which the server says that the message is over. */
  predicate Terminates(line: string, format: Format) {
    && PREFIX <= line && Trim(line[6..]) != ""
    && var e := format.parseEvent(Trim(line[6..])); e.Some? && (e.value.Done? || e.value.Error?)
  }

  lemma ConsumeLineCloses(d: Decoder, line: string, format: Format)
    requires d.error.None? && ConsumeLine(d, line, format).error.None?
    ensures HasClosing(ConsumeLine(d, line, format).pushed) <==> HasClosing(d.pushed) || Terminates(line, format)
  {
    if PREFIX <= line && Trim(line[6..]) != "" {
      ConsumeEventCloses(d, format.parseEvent(Trim(line[6..])).value, format);
    }
  }

  lemma {:induction false} ConsumeLinesClose(d: Decoder, lines: seq<string>, format: Format)
    requires d.error.None? && ConsumeLines(d, lines, format).error.None?
    ensures HasClosing(ConsumeLines(d, lines, format).pushed) <==>
            HasClosing(d.pushed) || exists line :: line in lines && Terminates(line, format)
  {
    if lines != [] {
      var n := |lines| - 1;
      ConsumeLinesClose(d, lines[..n], format);
      ConsumeLineCloses(ConsumeLines(d, lines[..n], format), lines[n], format);
      assert lines == lines[..n] + [lines[n]];
    }
  }

  lemma DecodedCloses(d: Decoder, text: string, cancelled: bool, format: Format)
    requires d.error.None? && d.pushed == [] && Decoded(d, text, cancelled, format).error.None?
    ensures HasClosing(Decoded(d, text, cancelled, format).pushed) <==>
            exists line :: line in Lines(text) && Terminates(line, format)
  {
    ConsumeLinesClose(d, Lines(text), format);
  }

  lemma FailureCloses(pushed: seq<MessageEvent>, reason: string)
    ensures HasClosing(pushed + [Failed(reason)])
  {
    assert Failed(reason) in pushed + [Failed(reason)];
  }

  /** Decodes a whole response. `abortedAtEnd` and `abortedInCatch` are the signal as read after the
      last chunk and in the failure path. The final result resolves exactly if decoding failed or some
      terminated line said that the message is over. */
  method StreamProxy(incoming: seq<Read>, abortedAtEnd: bool, abortedInCatch: bool, format: Format)
    returns (partial: PartialMessage, stream: EventStream)
    ensures fresh(partial) && fresh(stream) && stream.Valid() && stream.closed
    ensures var start := Decoder(Message(map[], "stop", None, ""), [], None);
            var d := Decoded(start, Join(Accepted(incoming)), AnyAborted(incoming) || abortedAtEnd, format);
            && partial.Value() == (if d.error.Some? then WithFailure(d.message, abortedInCatch, d.error.value) else d.message)
            && stream.pushed == d.pushed +
                 (if d.error.Some? then [Failed(if abortedInCatch then "aborted" else "error")] else [])
            && (stream.resolved <==>
                  d.error.Some? || exists line :: line in Lines(Join(Accepted(incoming))) && Terminates(line, format))
  {
    partial := new PartialMessage();
    stream := new EventStream();
    ghost var start := Decoder(Message(map[], "stop", None, ""), [], None);
    assert Now(partial, stream, None) == start;
    var error := ReadAll(incoming, format, partial, stream);
    if error.None? && abortedAtEnd {
      error := Some("Request aborted by user");
    }
    ghost var d := Decoded(start, Join(Accepted(incoming)), AnyAborted(incoming) || abortedAtEnd, format);
    assert Now(partial, stream, error) == d;
    if error.Some? {
      partial.stopReason := if abortedInCatch then "aborted" else "error";
      partial.errorMessage := error;
      assert partial.Value() == WithFailure(d.message, abortedInCatch, d.error.value);
      stream.Push(Failed(partial.stopReason));
    }
    stream.End();
    ResolvesIffClosed(stream.pushed);
    if d.error.Some? {
      FailureCloses(d.pushed, partial.stopReason);
    } else {
      DecodedCloses(start, Join(Accepted(incoming)), AnyAborted(incoming) || abortedAtEnd, format);
      assert d.pushed + [] == d.pushed;
    }
  }
}
