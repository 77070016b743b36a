/** Streaming one assistant reply into the conversation. The last slot of the context is overwritten
    in place while partial replies arrive. */
module Streaming {
  import opened Messages
  import opened HostState

  /** The messages array of a context: shared by reference, grown and overwritten in place. */
  class MessageList {
    var items: seq<AgentMessage>

    constructor (items: seq<AgentMessage>)
      ensures this.items == items
    {
      this.items := items;
    }

    method Push(message: AgentMessage)
      modifies this
      ensures items == old(items) + [message]
    {
      items := items + [message];
    }

    method PushAll(messages: seq<AgentMessage>)
      modifies this
      ensures items == old(items) + messages
    {
      for i := 0 to |messages|
        invariant items == old(items) + messages[..i]
      {
        items := items + [messages[i]];
        assert messages[..i + 1] == messages[..i] + [messages[i]];
      }
      assert messages[..|messages|] == messages;
    }

    method OverwriteLast(message: AgentMessage)
      requires items != []
      modifies this
      ensures items == old(items)[|old(items)| - 1 := message]
    {
      items := items[|items| - 1 := message];
    }
  }

  datatype StreamEvent =
    | Begin(partial: AssistantMessage)
    | Delta(partial: AssistantMessage)
    | Terminal

  /** What the provider answers: the events of the stream and its final message. */
  datatype Stream = Stream(events: seq<StreamEvent>, result: AssistantMessage) {

    /** The number of events before the first `done` or `error`, if any. */
    function LengthFrom(k: nat): (n: nat)
      requires k <= |events|
      ensures k <= n <= |events|
      ensures n < |events| ==> events[n].Terminal?
      ensures forall i :: k <= i < n ==> !events[i].Terminal?
      decreases |events| - k
    {
      if k == |events| || events[k].Terminal? then k else LengthFrom(k + 1)
    }

    function Length(): nat {
      LengthFrom(0)
    }

    /** The context slots taken by the reply after `k` events. */
    function Slots(k: nat): seq<AgentMessage>
      requires k <= |events|
    {
      if k == 0 then []
      else
        var before := Slots(k - 1);
        match events[k - 1]
        case Begin(p) => before + [Assistant(p)]
        case Delta(p) => if before == [] then [] else before[|before| - 1 := Assistant(p)]
        case Terminal => before
    }

    function Shown(k: nat): seq<Event>
      requires k <= |events|
    {
      if k == 0 then []
      else
        Shown(k - 1) +
        match events[k - 1]
        case Begin(p) => [MessageStart(Assistant(p))]
        case Delta(p) => if Slots(k - 1) == [] then [] else [MessageUpdate(Assistant(p))]
        case Terminal => []
    }

    function FinalSlots(): seq<AgentMessage> {
      var before := Slots(Length());
      if before == [] then [Assistant(result)] else before[|before| - 1 := Assistant(result)]
    }

    function Trace(): seq<Event> {
      Shown(Length()) +
      (if Slots(Length()) == [] then [MessageStart(Assistant(result))] else []) +
      [MessageEnd(Assistant(result))]
    }

    function Begins(k: nat): nat
      requires k <= |events|
    {
      if k == 0 then 0 else Begins(k - 1) + (if events[k - 1].Begin? then 1 else 0)
    }

    /** The documented stream contract: at most one `start` before the stream terminates. */
    predicate WellFormed() {
      Begins(Length()) <= 1
    }

    lemma {:induction false} SlotsCountBegins(k: nat)
      requires k <= |events|
      ensures |Slots(k)| == Begins(k)
    {
      if k > 0 {
        SlotsCountBegins(k - 1);
      }
    }

    /** The reply ends up as exactly one new context message if and only if the stream keeps its
        contract; a second `start` leaves a stale partial reply behind. */
    lemma OneSlotIffWellFormed()
      ensures FinalSlots() == [Assistant(result)] <==> WellFormed()
    {
      SlotsCountBegins(Length());
    }
  }

  /** Takes in the next event of the stream, before it terminates. */
  method ReceiveEvent(context: MessageList, stream: Stream, k: nat, addedPartial: bool, host: Host,
                      ghost base: seq<AgentMessage>, ghost trace: seq<Event>)
    returns (added: bool)
    requires k < |stream.events| && !stream.events[k].Terminal?
    requires host.Valid() && addedPartial == (stream.Slots(k) != [])
    requires context.items == base + stream.Slots(k) && host.trace == trace + stream.Shown(k)
    modifies context, host
    ensures host.Valid() && host.origin == old(host.origin)
    ensures added == (stream.Slots(k + 1) != [])
    ensures context.items == base + stream.Slots(k + 1) && host.trace == trace + stream.Shown(k + 1)
  {
    added := addedPartial;
    match stream.events[k] {
      case Begin(partial) =>
        context.Push(Assistant(partial));
        added := true;
        Assoc(base, stream.Slots(k), [Assistant(partial)]);
        host.ProcessEvents(MessageStart(Assistant(partial)));
        Assoc(trace, stream.Shown(k), [MessageStart(Assistant(partial))]);
      case Delta(partial) =>
        if addedPartial {
          OverwriteIn(base, stream.Slots(k), Assistant(partial));
          context.OverwriteLast(Assistant(partial));
          host.ProcessEvents(MessageUpdate(Assistant(partial)));
          Assoc(trace, stream.Shown(k), [MessageUpdate(Assistant(partial))]);
        } else {
          assert stream.Shown(k + 1) == stream.Shown(k);
        }
    }
  }

  lemma OverwriteIn(base: seq<AgentMessage>, slots: seq<AgentMessage>, m: AgentMessage)
    requires slots != []
    ensures (base + slots)[|base + slots| - 1 := m] == base + slots[|slots| - 1 := m]
  {
  }

  lemma TraceEnds(base: seq<Event>, stream: Stream)
    ensures var shown, final := base + stream.Shown(stream.Length()), Assistant(stream.result);
            base + stream.Trace() ==
              if stream.Slots(stream.Length()) == [] then shown + [MessageStart(final)] + [MessageEnd(final)]
              else shown + [MessageEnd(final)]
  {
    var shown, final := stream.Shown(stream.Length()), Assistant(stream.result);
    if stream.Slots(stream.Length()) == [] {
      Assoc(base, shown, [MessageStart(final)]);
      Assoc(base, shown + [MessageStart(final)], [MessageEnd(final)]);
    } else {
      assert shown + [] == shown;
      Assoc(base, shown, [MessageEnd(final)]);
    }
  }

  /** Puts the final reply in place once the stream has terminated. */
  method CloseReply(context: MessageList, stream: Stream, addedPartial: bool, host: Host,
                    ghost base: seq<AgentMessage>, ghost trace: seq<Event>)
    requires host.Valid() && addedPartial == (stream.Slots(stream.Length()) != [])
    requires context.items == base + stream.Slots(stream.Length())
    requires host.trace == trace + stream.Shown(stream.Length())
    modifies context, host
    ensures host.Valid() && host.origin == old(host.origin)
    ensures context.items == base + stream.FinalSlots()
    ensures host.trace == trace + stream.Trace()
  {
    var final := Assistant(stream.result);
    TraceEnds(trace, stream);
    if addedPartial {
      OverwriteIn(base, stream.Slots(stream.Length()), final);
      context.OverwriteLast(final);
    } else {
      assert base + [] == base;
      context.Push(final);
      host.ProcessEvents(MessageStart(final));
    }
    host.ProcessEvents(MessageEnd(final));
  }

  method StreamAssistantResponse(context: MessageList, stream: Stream, host: Host)
    returns (final: AssistantMessage)
    requires host.Valid()
    modifies context, host
    ensures host.Valid() && host.origin == old(host.origin)
    ensures final == stream.result
    ensures context.items == old(context.items) + stream.FinalSlots()
    ensures host.trace == old(host.trace) + stream.Trace()
  {
    var addedPartial := false;
    ghost var base, trace, length := context.items, host.trace, stream.Length();
    var k := 0;
    assert base + [] == base && trace + [] == trace;
    while k < |stream.events| && !stream.events[k].Terminal?
      invariant k <= length
      invariant host.Valid() && host.origin == old(host.origin)
      invariant addedPartial == (stream.Slots(k) != [])
      invariant context.items == base + stream.Slots(k) && host.trace == trace + stream.Shown(k)
    {
      addedPartial := ReceiveEvent(context, stream, k, addedPartial, host, base, trace);
      k := k + 1;
    }
    assert k == length;
    final := stream.result;
    CloseReply(context, stream, addedPartial, host, base, trace);
  }
}
