/** What the reducer keeps of a block between two starts, and in particular of the JSON of a tool call. */
module ProxyToolCalls {
  import opened Options
  import opened ProxyLines
  import opened ProxyReducer
  import Messages

  // ---------------------------------------------------------------- kinds

  datatype Kind = TextKind | ThinkingKind | ToolCallKind

  function KindOf(slot: Option<Block>): Option<Kind> {
    match slot
    case None => None
    case Some(TextBlock(_, _)) => Some(TextKind)
    case Some(ThinkingBlock(_, _)) => Some(ThinkingKind)
    case Some(ToolCallBlock(_, _, _, _)) => Some(ToolCallKind)
  }

  predicate IsStart(e: ProxyEvent) {
    e.TextStart? || e.ThinkingStart? || e.ToolCallStart?
  }

  predicate Continues(events: seq<ProxyEvent>) {
    forall e :: e in events ==> Indexed(e) && !IsStart(e)
  }

  lemma {:induction false} FoldKeepsKind(slot: Option<Block>, events: seq<ProxyEvent>, parse: Parser)
    requires Continues(events) && FoldSlot(slot, events, parse).Some?
    ensures KindOf(FoldSlot(slot, events, parse).value) == KindOf(slot)
    ensures slot.Some? && slot.value.ToolCallBlock? ==> forall e :: e in events ==> e.ToolCallDelta? || e.ToolCallEnd?
  {
    if events != [] {
      var n := |events| - 1;
      assert forall e :: e in events[..n] ==> e in events;
      assert events[n] in events && events == events[..n] + [events[n]];
      FoldKeepsKind(slot, events[..n], parse);
    }
  }

  /** Between starts at its index no event changes the kind of a block, creates one or removes it. */
  lemma KindsChangeAtStartsOnly(m: Message, events: seq<ProxyEvent>, i: int, parse: Parser)
    requires FoldMessage(m, events, parse).Some? && Continues(At(events, i))
    ensures KindOf(Slot(FoldMessage(m, events, parse).value, i)) == KindOf(Slot(m, i))
  {
    SlotsAreIndependent(m, events, parse);
    var after := FoldMessage(m, events, parse);
    assert SlotAfter(m, events, parse, i) == Some(Slot(after.value, i));
    FoldKeepsKind(Slot(m, i), At(events, i), parse);
  }

  // ---------------------------------------------------------------- the JSON of a tool call

  predicate OfToolCall(events: seq<ProxyEvent>) {
    forall e :: e in events ==> e.ToolCallDelta? || e.ToolCallEnd?
  }

  predicate Ended(events: seq<ProxyEvent>) {
    exists e :: e in events && e.ToolCallEnd?
  }

  /** The deltas of a tool call: all of them, those since its last end, and those before it. */
  function Deltas(events: seq<ProxyEvent>): seq<string>
    requires OfToolCall(events)
  {
    if events == [] then []
    else
      var n := |events| - 1;
      assert events[n] in events && forall e :: e in events[..n] ==> e in events;
      Deltas(events[..n]) + (if events[n].ToolCallDelta? then [events[n].delta] else [])
  }

  function SinceEnd(events: seq<ProxyEvent>): seq<string>
    requires OfToolCall(events)
  {
    if events == [] then []
    else
      var n := |events| - 1;
      assert events[n] in events && forall e :: e in events[..n] ==> e in events;
      if events[n].ToolCallEnd? then [] else SinceEnd(events[..n]) + [events[n].delta]
  }

  function BeforeEnd(events: seq<ProxyEvent>): seq<string>
    requires OfToolCall(events)
  {
    if events == [] then []
    else
      var n := |events| - 1;
      assert events[n] in events && forall e :: e in events[..n] ==> e in events;
      if events[n].ToolCallEnd? then Deltas(events[..n]) else BeforeEnd(events[..n])
  }

  /** The JSON kept after the start of a tool call and the events since: an end drops it, and a delta
      after an end extends the text of an undefined value. */
  function PartialJson(events: seq<ProxyEvent>): Option<string>
    requires OfToolCall(events)
  {
    if events != [] && events[|events| - 1].ToolCallEnd? then None
    else Some((if Ended(events) then "undefined" else "") + Join(SinceEnd(events)))
  }

  lemma JoinOne(chunks: seq<string>, chunk: string)
    ensures Join(chunks + [chunk]) == Join(chunks) + chunk
  {
    assert (chunks + [chunk])[..|chunks|] == chunks;
  }

  lemma EndedStays(events: seq<ProxyEvent>, e: ProxyEvent)
    requires !e.ToolCallEnd?
    ensures Ended(events + [e]) == Ended(events)
  {
    assert forall x :: x in events + [e] <==> x in events || x == e;
  }

  lemma SinceEndGrows(events: seq<ProxyEvent>, e: ProxyEvent)
    requires OfToolCall(events) && e.ToolCallDelta?
    ensures OfToolCall(events + [e])
    ensures Join(SinceEnd(events + [e])) == Join(SinceEnd(events)) + e.delta
  {
    assert (events + [e])[..|events|] == events;
    JoinOne(SinceEnd(events), e.delta);
  }

  lemma PartialJsonGrows(events: seq<ProxyEvent>, e: ProxyEvent)
    requires OfToolCall(events) && e.ToolCallDelta?
    ensures OfToolCall(events + [e])
    ensures PartialJson(events + [e]) == Some(ExtendJson(PartialJson(events), e.delta))
  {
    SinceEndGrows(events, e);
    EndedStays(events, e);
    Messages.Assoc(if Ended(events) then "undefined" else "", Join(SinceEnd(events)), e.delta);
    if events != [] && events[|events| - 1].ToolCallEnd? {
      assert events[|events| - 1] in events;
      assert Join(SinceEnd(events)) + e.delta == e.delta;
    }
  }

  /** The block of a tool call that keeps `json`. */
  predicate IsToolCall(slot: Option<Option<Block>>, id: string, name: string, json: Option<string>) {
    && slot.Some? && slot.value.Some? && slot.value.value.ToolCallBlock?
    && slot.value.value.id == id && slot.value.value.name == name && slot.value.value.partialJson == json
  }

  lemma ToolCallNext(block: Option<Block>, id: string, name: string, events: seq<ProxyEvent>, e: ProxyEvent, parse: Parser)
    requires OfToolCall(events + [e]) && OfToolCall(events)
    requires IsToolCall(Some(block), id, name, PartialJson(events)) && (e.ToolCallDelta? || e.ToolCallEnd?)
    ensures IsToolCall(StepSlot(block, e, parse), id, name, PartialJson(events + [e]))
  {
    if e.ToolCallDelta? {
      PartialJsonGrows(events, e);
    }
  }

  lemma {:induction false} ToolCallKeepsJson(id: string, name: string, events: seq<ProxyEvent>, parse: Parser)
    requires OfToolCall(events)
    ensures IsToolCall(FoldSlot(Some(ToolCallBlock(id, name, "{}", Some(""))), events, parse), id, name,
                       PartialJson(events))
  {
    if events != [] {
      var n := |events| - 1;
      assert events[n] in events && forall e :: e in events[..n] ==> e in events;
      assert events == events[..n] + [events[n]];
      ToolCallKeepsJson(id, name, events[..n], parse);
      var before := FoldSlot(Some(ToolCallBlock(id, name, "{}", Some(""))), events[..n], parse);
      ToolCallNext(before.value, id, name, events[..n], events[n], parse);
    }
  }

  lemma {:induction false} FoldSlotConcat(slot: Option<Block>, a: seq<ProxyEvent>, b: seq<ProxyEvent>, parse: Parser)
    requires forall e :: e in a + b ==> Indexed(e)
    ensures (forall e :: e in a ==> Indexed(e)) && (forall e :: e in b ==> Indexed(e))
    ensures FoldSlot(slot, a + b, parse) ==
              if FoldSlot(slot, a, parse).None? then None else FoldSlot(FoldSlot(slot, a, parse).value, b, parse)
  {
    assert forall e :: e in a ==> e in a + b;
    assert forall e :: e in b ==> e in a + b;
    if b == [] {
      assert a + b == a;
    } else {
      var n := |b| - 1;
      assert (a + b)[..|a + b| - 1] == a + b[..n];
      assert forall e :: e in a + b[..n] ==> e in a + b;
      FoldSlotConcat(slot, a, b[..n], parse);
    }
  }

  /** In any message, whatever happens at other indices: since the last start of a tool call the JSON kept
      for it is what its own deltas and ends make of it. After a delta that is the concatenation of all
      its deltas if and only if no end came before, or the deltas before the last end spell "undefined". */
  lemma ToolCallJson(m: Message, events: seq<ProxyEvent>, i: int, before: seq<ProxyEvent>, id: string, name: string,
                     since: seq<ProxyEvent>, parse: Parser)
    requires FoldMessage(m, events, parse).Some?
    requires At(events, i) == before + [ToolCallStart(i, id, name)] + since && Continues(since)
    ensures OfToolCall(since)
    ensures var slot := Slot(FoldMessage(m, events, parse).value, i);
            && slot.Some? && slot.value.ToolCallBlock? && slot.value.id == id && slot.value.name == name
            && slot.value.partialJson == PartialJson(since)
            && (since != [] && since[|since| - 1].ToolCallDelta? ==>
                  (slot.value.partialJson == Some(Join(Deltas(since))) <==>
                     !Ended(since) || Join(BeforeEnd(since)) == "undefined"))
  {
    var upToStart := before + [ToolCallStart(i, id, name)];
    SlotsAreIndependent(m, events, parse);
    AtIsIndexed(events, i);
    assert SlotAfter(m, events, parse, i) == Some(Slot(FoldMessage(m, events, parse).value, i));
    FoldSlotConcat(Slot(m, i), upToStart, since, parse);
    StartReplaces(Slot(m, i), before, i, id, name, parse);
    FoldKeepsKind(Some(ToolCallBlock(id, name, "{}", Some(""))), since, parse);
    ToolCallKeepsJson(id, name, since, parse);
    if since != [] && since[|since| - 1].ToolCallDelta? {
      JsonIsItsDeltasIff(since);
    }
  }

  lemma StartReplaces(slot: Option<Block>, before: seq<ProxyEvent>, i: int, id: string, name: string, parse: Parser)
    requires forall e :: e in before + [ToolCallStart(i, id, name)] ==> Indexed(e)
    requires FoldSlot(slot, before + [ToolCallStart(i, id, name)], parse).Some?
    ensures FoldSlot(slot, before + [ToolCallStart(i, id, name)], parse)
         == Some(Some(ToolCallBlock(id, name, "{}", Some(""))))
  {
    assert (before + [ToolCallStart(i, id, name)])[..|before|] == before;
  }

  lemma {:induction false} DeltasSplitAtEnd(events: seq<ProxyEvent>)
    requires OfToolCall(events)
    ensures Join(Deltas(events)) == Join(BeforeEnd(events)) + Join(SinceEnd(events))
    ensures !Ended(events) ==> BeforeEnd(events) == []
  {
    if events != [] {
      var n := |events| - 1;
      assert events[n] in events && forall e :: e in events[..n] ==> e in events;
      DeltasSplitAtEnd(events[..n]);
      if events[n].ToolCallDelta? {
        var delta := events[n].delta;
        JoinOne(Deltas(events[..n]), delta);
        JoinOne(SinceEnd(events[..n]), delta);
        Messages.Assoc(Join(BeforeEnd(events[..n])), Join(SinceEnd(events[..n])), delta);
        assert Ended(events[..n]) ==> Ended(events);
      } else {
        assert Deltas(events) == Deltas(events[..n]);
        assert Join(Deltas(events)) + "" == Join(Deltas(events));
      }
    }
  }

  /** After a delta, the JSON kept is the concatenation of all deltas since the start if and only if no
      end came before it or the deltas before the last end spell that very "undefined". */
  lemma JsonIsItsDeltasIff(events: seq<ProxyEvent>)
    requires OfToolCall(events) && events != [] && events[|events| - 1].ToolCallDelta?
    ensures PartialJson(events) == Some(Join(Deltas(events))) <==>
              !Ended(events) || Join(BeforeEnd(events)) == "undefined"
    ensures Ended(events) ==> "undefined" <= PartialJson(events).value
  {
    DeltasSplitAtEnd(events);
    var rest := Join(SinceEnd(events));
    if Ended(events) {
      SameTail("undefined", Join(BeforeEnd(events)), rest);
    }
  }

  lemma SameTail(a: string, b: string, c: string)
    ensures a + c == b + c <==> a == b
  {
    if a + c == b + c {
      assert |a| == |b|;
      assert a == (a + c)[..|a|] && b == (b + c)[..|b|];
    }
  }

  /** An input on which it fails: one delta after the end. */
  lemma DeltaAfterEnd(m: Message, parse: Parser)
    ensures var events := [ToolCallStart(0, "call", "read"), ToolCallDelta(0, "{}"), ToolCallEnd(0), ToolCallDelta(0, "{}")];
            var after := FoldMessage(m, events, parse);
            && after.Some?
            && Slot(after.value, 0)
               == Some(ToolCallBlock("call", "read", Arguments(parse, "undefined{}"), Some("undefined{}")))
  {
    var delta := ToolCallDelta(0, "{}");
    var ended := [ToolCallStart(0, "call", "read"), delta, ToolCallEnd(0)];
    CallThenEnd(m, parse);
    NextSlot(m, ended, delta, Some(ToolCallBlock("call", "read", Arguments(parse, "{}"), None)), parse);
    assert ended + [delta] == [ToolCallStart(0, "call", "read"), delta, ToolCallEnd(0), delta];
    assert "undefined" + "{}" == "undefined{}";
  }

  lemma CallThenEnd(m: Message, parse: Parser)
    ensures var after := FoldMessage(m, [ToolCallStart(0, "call", "read"), ToolCallDelta(0, "{}"), ToolCallEnd(0)], parse);
            after.Some? && Slot(after.value, 0) == Some(ToolCallBlock("call", "read", Arguments(parse, "{}"), None))
  {
    var start, delta, end := ToolCallStart(0, "call", "read"), ToolCallDelta(0, "{}"), ToolCallEnd(0);
    CallThenDelta(m, parse);
    NextSlot(m, [start, delta], end, Some(ToolCallBlock("call", "read", Arguments(parse, "{}"), Some("{}"))), parse);
    assert [start, delta] + [end] == [start, delta, end];
  }

  lemma CallThenDelta(m: Message, parse: Parser)
    ensures var after := FoldMessage(m, [ToolCallStart(0, "call", "read"), ToolCallDelta(0, "{}")], parse);
            after.Some? && Slot(after.value, 0) == Some(ToolCallBlock("call", "read", Arguments(parse, "{}"), Some("{}")))
  {
    var start, delta := ToolCallStart(0, "call", "read"), ToolCallDelta(0, "{}");
    CallOpens(m, parse);
    NextSlot(m, [start], delta, Some(ToolCallBlock("call", "read", "{}", Some(""))), parse);
    assert [start] + [delta] == [start, delta];
    assert "" + "{}" == "{}";
  }

  lemma CallOpens(m: Message, parse: Parser)
    ensures var after := FoldMessage(m, [ToolCallStart(0, "call", "read")], parse);
            after.Some? && Slot(after.value, 0) == Some(ToolCallBlock("call", "read", "{}", Some("")))
  {
    NextSlot(m, [], ToolCallStart(0, "call", "read"), Slot(m, 0), parse);
    assert [] + [ToolCallStart(0, "call", "read")] == [ToolCallStart(0, "call", "read")];
  }

  lemma NextSlot(m: Message, events: seq<ProxyEvent>, e: ProxyEvent, slot: Option<Block>, parse: Parser)
    requires FoldMessage(m, events, parse).Some? && Indexed(e)
    requires slot == Slot(FoldMessage(m, events, parse).value, e.contentIndex) && StepSlot(slot, e, parse).Some?
    ensures var after := FoldMessage(m, events + [e], parse);
            after.Some? && Slot(after.value, e.contentIndex) == StepSlot(slot, e, parse).value
  {
    FoldMessageSnoc(m, events, e, parse);
    StepTouchesOneSlot(FoldMessage(m, events, parse).value, e, parse, e.contentIndex);
  }

  lemma FoldMessageSnoc(m: Message, events: seq<ProxyEvent>, e: ProxyEvent, parse: Parser)
    ensures FoldMessage(m, events + [e], parse) ==
              var before := FoldMessage(m, events, parse);
              if before.None? then None else StepMessage(before.value, e, parse)
  {
    assert (events + [e])[..|events|] == events;
  }
}
