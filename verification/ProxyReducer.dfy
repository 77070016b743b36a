/** Rebuilding an assistant message from proxy events that carry deltas only. */
module ProxyReducer {
  import opened Options

  datatype Block =
    | TextBlock(text: string, textSignature: Option<string>)
    | ThinkingBlock(thinking: string, thinkingSignature: Option<string>)
    | ToolCallBlock(id: string, name: string, arguments: string, partialJson: Option<string>)

  datatype ProxyEvent =
    | Start
    | TextStart(contentIndex: int)
    | TextDelta(contentIndex: int, delta: string)
    | TextEnd(contentIndex: int, signature: Option<string>)
    | ThinkingStart(contentIndex: int)
    | ThinkingDelta(contentIndex: int, delta: string)
    | ThinkingEnd(contentIndex: int, signature: Option<string>)
    | ToolCallStart(contentIndex: int, id: string, toolName: string)
    | ToolCallDelta(contentIndex: int, delta: string)
    | ToolCallEnd(contentIndex: int)
    | Done(reason: string, usage: string)
    | Error(reason: string, errorMessage: Option<string>, usage: string)
    | Unknown(kind: string)

  /** The message under construction. Content is a sparse array, any of whose slots may be unset. */
  datatype Message = Message(
    content: map<int, Block>, stopReason: string, errorMessage: Option<string>, usage: string)

  datatype MessageEvent =
    | Started
    | BlockStarted(contentIndex: int)
    | BlockDelta(contentIndex: int, delta: string)
    | TextEnded(contentIndex: int, content: string)
    | ThinkingEnded(contentIndex: int, content: string)
    | ToolCallEnded(contentIndex: int, toolCall: Block)
    | Finished(reason: string)
    | Failed(reason: string)

  /** What processing an event gives: an event to push, nothing, or a throw. */
  datatype Outcome = Push(event: MessageEvent) | Nothing | Throw(error: string)

  /** `parseStreamingJson`, with `None` for results that count as false. */
  type Parser = string -> Option<string>

  function Arguments(parse: Parser, json: string): string {
    if parse(json).Some? then parse(json).value else "{}"
  }

  /** Appending to a property that was deleted starts from the text of an undefined value. */
  function ExtendJson(partialJson: Option<string>, delta: string): string {
    (if partialJson.Some? then partialJson.value else "undefined") + delta
  }

  predicate Indexed(e: ProxyEvent) {
    !e.Start? && !e.Done? && !e.Error? && !e.Unknown?
  }

  /** One slot of the content under one of its events; `None` is a throw. */
  function StepSlot(slot: Option<Block>, e: ProxyEvent, parse: Parser): Option<Option<Block>>
    requires Indexed(e)
  {
    match e
    case TextStart(_) => Some(Some(TextBlock("", None)))
    case TextDelta(_, delta) =>
      if slot.Some? && slot.value.TextBlock? then Some(Some(slot.value.(text := slot.value.text + delta))) else None
    case TextEnd(_, signature) =>
      if slot.Some? && slot.value.TextBlock? then Some(Some(slot.value.(textSignature := signature))) else None
    case ThinkingStart(_) => Some(Some(ThinkingBlock("", None)))
    case ThinkingDelta(_, delta) =>
      if slot.Some? && slot.value.ThinkingBlock?
      then Some(Some(slot.value.(thinking := slot.value.thinking + delta))) else None
    case ThinkingEnd(_, signature) =>
      if slot.Some? && slot.value.ThinkingBlock? then Some(Some(slot.value.(thinkingSignature := signature))) else None
    case ToolCallStart(_, id, name) => Some(Some(ToolCallBlock(id, name, "{}", Some(""))))
    case ToolCallDelta(_, delta) =>
      if slot.Some? && slot.value.ToolCallBlock? then
        var json := ExtendJson(slot.value.partialJson, delta);
        Some(Some(slot.value.(arguments := Arguments(parse, json), partialJson := Some(json))))
      else None
    case ToolCallEnd(_) =>
      if slot.Some? && slot.value.ToolCallBlock? then Some(Some(slot.value.(partialJson := None))) else Some(slot)
  }

  function Slot(m: Message, i: int): Option<Block> {
    if i in m.content then Some(m.content[i]) else None
  }

  function SetSlot(m: Message, i: int, slot: Option<Block>): Message {
    m.(content := if slot.Some? then m.content[i := slot.value] else m.content - {i})
  }

  /** The whole message under one event; `None` is a throw. */
  function StepMessage(m: Message, e: ProxyEvent, parse: Parser): Option<Message> {
    if Indexed(e) then
      var slot := StepSlot(Slot(m, e.contentIndex), e, parse);
      if slot.None? then None else Some(SetSlot(m, e.contentIndex, slot.value))
    else
      match e
      case Done(reason, usage) => Some(m.(stopReason := reason, usage := usage))
      case Error(reason, errorMessage, usage) =>
        Some(m.(stopReason := reason, errorMessage := errorMessage, usage := usage))
      case _ => Some(m)
  }

  /** What is pushed for an event, given the message after it. */
  function EventFor(m: Message, after: Option<Message>, e: ProxyEvent): Outcome {
    if after.None? then Throw("Received delta or end for content of another kind")
    else
      match e
      case Start => Push(Started)
      case TextStart(i) => Push(BlockStarted(i))
      case ThinkingStart(i) => Push(BlockStarted(i))
      case ToolCallStart(i, _, _) => Push(BlockStarted(i))
      case TextDelta(i, delta) => Push(BlockDelta(i, delta))
      case ThinkingDelta(i, delta) => Push(BlockDelta(i, delta))
      case ToolCallDelta(i, delta) => Push(BlockDelta(i, delta))
      case TextEnd(i, _) =>
        if Slot(m, i).Some? && Slot(m, i).value.TextBlock? then Push(TextEnded(i, Slot(m, i).value.text)) else Nothing
      case ThinkingEnd(i, _) =>
        if Slot(m, i).Some? && Slot(m, i).value.ThinkingBlock?
        then Push(ThinkingEnded(i, Slot(m, i).value.thinking)) else Nothing
      case ToolCallEnd(i) =>
        if Slot(m, i).Some? && Slot(m, i).value.ToolCallBlock?
        then Push(ToolCallEnded(i, Slot(m, i).value.(partialJson := None))) else Nothing
      case Done(reason, _) => Push(Finished(reason))
      case Error(reason, _, _) => Push(Failed(reason))
      case Unknown(_) => Nothing
  }

  function OutcomeOf(m: Message, e: ProxyEvent, parse: Parser): Outcome {
    EventFor(m, StepMessage(m, e, parse), e)
  }

  function FoldMessage(m: Message, events: seq<ProxyEvent>, parse: Parser): Option<Message> {
    if events == [] then Some(m)
    else
      var n := |events| - 1;
      var before := FoldMessage(m, events[..n], parse);
      if before.None? then None else StepMessage(before.value, events[n], parse)
  }

  /** The events that address slot `i`, in order. */
  function At(events: seq<ProxyEvent>, i: int): seq<ProxyEvent> {
    if events == [] then []
    else
      var n := |events| - 1;
      At(events[..n], i) + (if Indexed(events[n]) && events[n].contentIndex == i then [events[n]] else [])
  }

  lemma {:induction false} AtIsIndexed(events: seq<ProxyEvent>, i: int)
    ensures forall e :: e in At(events, i) ==> Indexed(e) && e.contentIndex == i
  {
    if events != [] {
      AtIsIndexed(events[..|events| - 1], i);
    }
  }

  function FoldSlot(slot: Option<Block>, events: seq<ProxyEvent>, parse: Parser): Option<Option<Block>>
    requires forall e :: e in events ==> Indexed(e)
  {
    if events == [] then Some(slot)
    else
      var n := |events| - 1;
      assert forall e :: e in events[..n] ==> e in events;
      assert events[n] in events;
      var before := FoldSlot(slot, events[..n], parse);
      if before.None? then None else StepSlot(before.value, events[n], parse)
  }

  /** What the events at slot `i` alone make of it. */
  function SlotAfter(m: Message, events: seq<ProxyEvent>, parse: Parser, i: int): Option<Option<Block>> {
    AtIsIndexed(events, i);
    FoldSlot(Slot(m, i), At(events, i), parse)
  }

  lemma SlotAfterSnoc(m: Message, events: seq<ProxyEvent>, e: ProxyEvent, parse: Parser, i: int)
    ensures SlotAfter(m, events + [e], parse, i) ==
      (if Indexed(e) && e.contentIndex == i then
         (if SlotAfter(m, events, parse, i).None? then None
          else StepSlot(SlotAfter(m, events, parse, i).value, e, parse))
       else SlotAfter(m, events, parse, i))
  {
    AtIsIndexed(events, i);
    AtIsIndexed(events + [e], i);
    assert (events + [e])[..|events|] == events;
    if Indexed(e) && e.contentIndex == i {
      assert (At(events, i) + [e])[..|At(events, i)|] == At(events, i);
    } else {
      assert At(events + [e], i) == At(events, i);
    }
  }

  /** `after` holds, or fails to hold, in every slot what the events at that slot alone make of it. */
  ghost predicate SlotwiseEqual(m: Message, events: seq<ProxyEvent>, parse: Parser, after: Option<Message>) {
    && (after.Some? <==> forall i :: SlotAfter(m, events, parse, i).Some?)
    && (after.Some? ==> forall i :: SlotAfter(m, events, parse, i) == Some(Slot(after.value, i)))
  }

  /** One event changes at most the slot it addresses. */
  lemma StepTouchesOneSlot(m: Message, e: ProxyEvent, parse: Parser, i: int)
    ensures var after := StepMessage(m, e, parse);
            && (after.None? <==> Indexed(e) && StepSlot(Slot(m, e.contentIndex), e, parse).None?)
            && (after.Some? ==>
                  Slot(after.value, i) == if Indexed(e) && e.contentIndex == i
                                          then StepSlot(Slot(m, i), e, parse).value else Slot(m, i))
  {
  }

  lemma StepSlotwise(m: Message, events: seq<ProxyEvent>, e: ProxyEvent, parse: Parser, before: Message)
    requires SlotwiseEqual(m, events, parse, Some(before))
    ensures SlotwiseEqual(m, events + [e], parse, StepMessage(before, e, parse))
  {
    var after := StepMessage(before, e, parse);
    forall i
      ensures SlotAfter(m, events + [e], parse, i) ==
                if Indexed(e) && e.contentIndex == i then StepSlot(Slot(before, i), e, parse)
                else Some(Slot(before, i))
      ensures after.Some? ==> SlotAfter(m, events + [e], parse, i) == Some(Slot(after.value, i))
    {
      assert SlotAfter(m, events, parse, i) == Some(Slot(before, i));
      SlotAfterSnoc(m, events, e, parse, i);
      StepTouchesOneSlot(before, e, parse, i);
    }
    if after.None? {
      assert SlotAfter(m, events + [e], parse, e.contentIndex).None?;
    }
  }

  lemma ThrowStays(m: Message, events: seq<ProxyEvent>, e: ProxyEvent, parse: Parser)
    requires SlotwiseEqual(m, events, parse, None)
    ensures SlotwiseEqual(m, events + [e], parse, None)
  {
    var i :| SlotAfter(m, events, parse, i).None?;
    SlotAfterSnoc(m, events, e, parse, i);
  }

  /** Slots are independent: however the events of different slots are interleaved, the fold succeeds
      if and only if each slot's own events do, and leaves in each slot what those alone make of it. */
  lemma {:induction false} SlotsAreIndependent(m: Message, events: seq<ProxyEvent>, parse: Parser)
    ensures SlotwiseEqual(m, events, parse, FoldMessage(m, events, parse))
  {
    if events != [] {
      var n := |events| - 1;
      assert events == events[..n] + [events[n]];
      SlotsAreIndependent(m, events[..n], parse);
      var before := FoldMessage(m, events[..n], parse);
      if before.Some? {
        StepSlotwise(m, events[..n], events[n], parse, before.value);
      } else {
        ThrowStays(m, events[..n], events[n], parse);
      }
    }
  }
}
