/** The reducer rebuilds the message its deltas were cut from. */
module ProxyRebuild {
  import opened Options
  import opened ProxyLines
  import opened ProxyReducer

  /** A finished block and one way of cutting its text into deltas. */
  datatype Part =
    | TextPart(deltas: seq<string>, signature: Option<string>)
    | ThinkingPart(deltas: seq<string>, signature: Option<string>)
    | ToolCallPart(id: string, name: string, deltas: seq<string>)

  function StartOf(i: int, part: Part): ProxyEvent {
    match part
    case TextPart(_, _) => TextStart(i)
    case ThinkingPart(_, _) => ThinkingStart(i)
    case ToolCallPart(id, name, _) => ToolCallStart(i, id, name)
  }

  function DeltaOf(i: int, part: Part, delta: string): ProxyEvent {
    match part
    case TextPart(_, _) => TextDelta(i, delta)
    case ThinkingPart(_, _) => ThinkingDelta(i, delta)
    case ToolCallPart(_, _, _) => ToolCallDelta(i, delta)
  }

  function EndOf(i: int, part: Part): ProxyEvent {
    match part
    case TextPart(_, signature) => TextEnd(i, signature)
    case ThinkingPart(_, signature) => ThinkingEnd(i, signature)
    case ToolCallPart(_, _, _) => ToolCallEnd(i)
  }

  /** The start of a block and its first `k` deltas. */
  function Opened(i: int, part: Part, k: nat): seq<ProxyEvent>
    requires k <= |part.deltas|
  {
    if k == 0 then [StartOf(i, part)] else Opened(i, part, k - 1) + [DeltaOf(i, part, part.deltas[k - 1])]
  }

  function Rendered(i: int, part: Part): seq<ProxyEvent> {
    Opened(i, part, |part.deltas|) + [EndOf(i, part)]
  }

  /** The block under construction after `k` deltas. */
  function Growing(part: Part, k: nat, parse: Parser): Block
    requires k <= |part.deltas|
  {
    var text := Join(part.deltas[..k]);
    match part
    case TextPart(_, _) => TextBlock(text, None)
    case ThinkingPart(_, _) => ThinkingBlock(text, None)
    case ToolCallPart(id, name, _) =>
      ToolCallBlock(id, name, if k == 0 then "{}" else Arguments(parse, text), Some(text))
  }

  /** The block the part stands for: its text is all of its deltas, and the arguments of a tool call are
      the parse of all of its JSON. */
  function Rebuilt(part: Part, parse: Parser): Block {
    var text := Join(part.deltas);
    match part
    case TextPart(_, signature) => TextBlock(text, signature)
    case ThinkingPart(_, signature) => ThinkingBlock(text, signature)
    case ToolCallPart(id, name, _) =>
      ToolCallBlock(id, name, if part.deltas == [] then "{}" else Arguments(parse, text), None)
  }

  lemma {:induction false} OpenedIsIndexed(i: int, part: Part, k: nat)
    requires k <= |part.deltas|
    ensures forall e :: e in Opened(i, part, k) ==> Indexed(e)
  {
    if k > 0 {
      OpenedIsIndexed(i, part, k - 1);
    }
  }

  lemma FoldSlotSnoc(slot: Option<Block>, events: seq<ProxyEvent>, e: ProxyEvent, parse: Parser)
    requires (forall f :: f in events ==> Indexed(f)) && Indexed(e)
    ensures FoldSlot(slot, events + [e], parse) ==
              var before := FoldSlot(slot, events, parse);
              if before.None? then None else StepSlot(before.value, e, parse)
  {
    assert (events + [e])[..|events|] == events;
  }

  lemma StartStep(slot: Option<Block>, i: int, part: Part, parse: Parser)
    ensures StepSlot(slot, StartOf(i, part), parse) == Some(Some(Growing(part, 0, parse)))
  {
  }

  lemma DeltaStep(i: int, part: Part, k: nat, parse: Parser)
    requires k < |part.deltas|
    ensures StepSlot(Some(Growing(part, k, parse)), DeltaOf(i, part, part.deltas[k]), parse)
         == Some(Some(Growing(part, k + 1, parse)))
  {
    assert part.deltas[..k + 1][..k] == part.deltas[..k];
    assert Join(part.deltas[..k + 1]) == Join(part.deltas[..k]) + part.deltas[k];
  }

  lemma EndStep(i: int, part: Part, parse: Parser)
    ensures StepSlot(Some(Growing(part, |part.deltas|, parse)), EndOf(i, part), parse) == Some(Some(Rebuilt(part, parse)))
  {
    assert part.deltas[..|part.deltas|] == part.deltas;
  }

  /** The start of a block and its first `k` deltas make of any slot the block under construction. */
  predicate Builds(slot: Option<Block>, i: int, part: Part, k: nat, parse: Parser)
    requires k <= |part.deltas|
  {
    && (forall e :: e in Opened(i, part, k) ==> Indexed(e))
    && FoldSlot(slot, Opened(i, part, k), parse) == Some(Some(Growing(part, k, parse)))
  }

  lemma {:induction false} OpenedBuilds(slot: Option<Block>, i: int, part: Part, k: nat, parse: Parser)
    requires k <= |part.deltas|
    ensures Builds(slot, i, part, k, parse)
  {
    if k == 0 {
      StartBuilds(slot, i, part, parse);
    } else {
      OpenedBuilds(slot, i, part, k - 1, parse);
      DeltaBuilds(slot, i, part, k - 1, parse);
    }
  }

  lemma StartBuilds(slot: Option<Block>, i: int, part: Part, parse: Parser)
    ensures Builds(slot, i, part, 0, parse)
  {
    FoldSlotSnoc(slot, [], StartOf(i, part), parse);
    assert [] + [StartOf(i, part)] == [StartOf(i, part)];
    StartStep(slot, i, part, parse);
  }

  lemma DeltaBuilds(slot: Option<Block>, i: int, part: Part, k: nat, parse: Parser)
    requires k < |part.deltas| && Builds(slot, i, part, k, parse)
    ensures Builds(slot, i, part, k + 1, parse)
  {
    OpenedIsIndexed(i, part, k + 1);
    FoldSlotSnoc(slot, Opened(i, part, k), DeltaOf(i, part, part.deltas[k]), parse);
    DeltaStep(i, part, k, parse);
  }

  lemma RenderedBuilds(slot: Option<Block>, i: int, part: Part, parse: Parser)
    ensures forall e :: e in Rendered(i, part) ==> Indexed(e)
    ensures FoldSlot(slot, Rendered(i, part), parse) == Some(Some(Rebuilt(part, parse)))
  {
    var n := |part.deltas|;
    OpenedBuilds(slot, i, part, n, parse);
    FoldSlotSnoc(slot, Opened(i, part, n), EndOf(i, part), parse);
    EndStep(i, part, parse);
  }

  /** `events` is some interleaving of the renderings of `parts`, each at its own index, with events
      that address no slot. */
  ghost predicate Carries(events: seq<ProxyEvent>, parts: seq<Part>) {
    forall i :: At(events, i) == if 0 <= i < |parts| then Rendered(i, parts[i]) else []
  }

  /** Reconstruction: however the blocks are cut into deltas and interleaved, the message ends up with
      exactly those blocks. */
  lemma MessageIsRebuilt(m: Message, events: seq<ProxyEvent>, parts: seq<Part>, parse: Parser)
    requires m.content == map[] && Carries(events, parts)
    ensures var after := FoldMessage(m, events, parse);
            && after.Some?
            && after.value.content == map i | 0 <= i < |parts| :: Rebuilt(parts[i], parse)
  {
    SlotsAreIndependent(m, events, parse);
    forall i
      ensures SlotAfter(m, events, parse, i)
           == Some(if 0 <= i < |parts| then Some(Rebuilt(parts[i], parse)) else None)
    {
      AtIsIndexed(events, i);
      if 0 <= i < |parts| {
        RenderedBuilds(Slot(m, i), i, parts[i], parse);
      }
    }
    var content := FoldMessage(m, events, parse).value.content;
    forall i
      ensures (i in content <==> 0 <= i < |parts|) && (i in content ==> content[i] == Rebuilt(parts[i], parse))
    {
      assert SlotAfter(m, events, parse, i) == Some(Slot(FoldMessage(m, events, parse).value, i));
    }
  }

  function EndReport(i: int, part: Part, parse: Parser): MessageEvent {
    match part
    case TextPart(_, _) => TextEnded(i, Join(part.deltas))
    case ThinkingPart(_, _) => ThinkingEnded(i, Join(part.deltas))
    case ToolCallPart(_, _, _) => ToolCallEnded(i, Rebuilt(part, parse))
  }

  lemma EndOutcome(now: Message, i: int, part: Part, parse: Parser)
    requires Slot(now, i) == Some(Growing(part, |part.deltas|, parse))
    ensures OutcomeOf(now, EndOf(i, part), parse) == Push(EndReport(i, part, parse))
  {
    assert part.deltas[..|part.deltas|] == part.deltas;
    EndStep(i, part, parse);
  }

  /** The end of a block reports what its own deltas summed to, whatever came in between at other
      indices. */
  lemma EndReportsItsDeltas(m: Message, events: seq<ProxyEvent>, i: int, part: Part, parse: Parser)
    requires At(events, i) == Opened(i, part, |part.deltas|) && FoldMessage(m, events, parse).Some?
    ensures OutcomeOf(FoldMessage(m, events, parse).value, EndOf(i, part), parse) == Push(EndReport(i, part, parse))
  {
    SlotsAreIndependent(m, events, parse);
    OpenedBuilds(Slot(m, i), i, part, |part.deltas|, parse);
    var now := FoldMessage(m, events, parse).value;
    assert SlotAfter(m, events, parse, i) == Some(Slot(now, i));
    EndOutcome(now, i, part, parse);
  }
}
