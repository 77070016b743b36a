/** The records of a run agree: the trace, the returned messages, the context, the caller's array and
    the host tell the same conversation. */
module RecordTheorems {
  import opened Messages
  import opened HostState
  import opened ToolBatch
  import opened Streaming
  import opened LoopSpec
  import opened LoopTheorems
  import opened BatchTheorems

  lemma {:induction false} NoMessageEnds(trace: seq<Event>)
    requires forall e :: e in trace ==> !e.MessageEnd?
    ensures MessageEnds(trace) == []
  {
    if trace != [] {
      var init := trace[..|trace| - 1];
      assert forall e :: e in init ==> e in trace;
      assert trace[|trace| - 1] in trace;
      NoMessageEnds(init);
    }
  }

  lemma MessageEndsOfOne(e: Event)
    ensures MessageEnds([e]) == if e.MessageEnd? then [e.message] else []
  {
    assert [e][..0] == [];
  }

  lemma MessageEndsOfPair(m: AgentMessage)
    ensures MessageEnds([MessageStart(m), MessageEnd(m)]) == [m]
  {
    MessageEndsOfOne(MessageStart(m));
    assert [MessageStart(m), MessageEnd(m)][..1] == [MessageStart(m)];
  }

  lemma {:induction false} MessageEndsOfPairs(messages: seq<AgentMessage>)
    ensures MessageEnds(Pairs(messages)) == messages
  {
    if messages != [] {
      var n := |messages| - 1;
      MessageEndsOfPairs(messages[..n]);
      MessageEndsConcat(Pairs(messages[..n]), [MessageStart(messages[n]), MessageEnd(messages[n])]);
      MessageEndsOfPair(messages[n]);
    }
  }

  lemma {:induction false} ShownEndsNothing(s: Stream, k: nat)
    requires k <= |s.events|
    ensures forall e :: e in s.Shown(k) ==> e.MessageStart? || e.MessageUpdate?
  {
    if k > 0 {
      ShownEndsNothing(s, k - 1);
    }
  }

  lemma MessageEndsOfStream(s: Stream)
    ensures MessageEnds(s.Trace()) == [Assistant(s.result)]
  {
    var final := Assistant(s.result);
    var before := s.Shown(s.Length()) + (if s.Slots(s.Length()) == [] then [MessageStart(final)] else []);
    ShownEndsNothing(s, s.Length());
    NoMessageEnds(before);
    MessageEndsConcat(before, [MessageEnd(final)]);
    MessageEndsOfOne(MessageEnd(final));
  }

  lemma {:induction false} MessageEndsOfResultPairs(records: seq<CallRecord>)
    ensures MessageEnds(ResultPairs(records)) == AsMessages(Results(records))
  {
    if records != [] {
      var n := |records| - 1;
      assert records == records[..n] + [records[n]];
      MessageEndsOfResultPairs(records[..n]);
      MessageEndsConcat(ResultPairs(records[..n]), ResultPair(records[n]));
      MessageEndsOfPair(ToolResult(ResultMessage(records[n].final)));
      GrowResults(records[..n], records[n]);
    }
  }

  lemma MessageEndsOfCallSection(r: CallRecord)
    ensures MessageEnds(CallSection(r)) == [ToolResult(ResultMessage(r.final))]
  {
    MessageEndsConcat([StartEvent(r.call)] + AllUpdates(r) + [EndEvent(r.final)], ResultPair(r));
    NoMessageEnds([StartEvent(r.call)] + AllUpdates(r) + [EndEvent(r.final)]);
    MessageEndsOfPair(ToolResult(ResultMessage(r.final)));
  }

  lemma {:induction false} MessageEndsOfSequential(records: seq<CallRecord>)
    ensures MessageEnds(SequentialTrace(records)) == AsMessages(Results(records))
  {
    if records != [] {
      var n := |records| - 1;
      assert records == records[..n] + [records[n]];
      MessageEndsOfSequential(records[..n]);
      MessageEndsConcat(SequentialTrace(records[..n]), CallSection(records[n]));
      MessageEndsOfCallSection(records[n]);
      GrowResults(records[..n], records[n]);
    }
  }

  lemma MessageEndsOfConcurrent(records: seq<CallRecord>, weave: seq<Event>)
    requires LegalWeave(records, weave)
    ensures MessageEnds(ConcurrentTrace(records, weave)) == AsMessages(Results(records))
  {
    AnnouncementsRunNothing(records);
    WeaveRunsOnly(records, weave);
    NoMessageEnds(Announcements(records));
    NoMessageEnds(weave);
    MessageEndsConcat(Announcements(records), weave);
    MessageEndsConcat(Announcements(records) + weave, ResultPairs(records));
    MessageEndsOfResultPairs(records);
  }

  lemma MessageEndsOfTools(s: LoopState, mode: Mode, p: Played)
    requires LegalTurn(s, mode, p)
    ensures var b := TurnBatch(s, p.turn);
            MessageEnds(ToolTrace(b, p.turn, mode, p.weave)) == AsMessages(TurnResults(b, p.turn))
  {
    var b := TurnBatch(s, p.turn);
    if ServesTools(b, p.turn) {
      if b.ForcedSequential(mode) {
        MessageEndsOfSequential(b.Taken());
      } else {
        MessageEndsOfConcurrent(b.Taken(), p.weave);
      }
    }
  }

  lemma MessageEndsOfParts(a: seq<Event>, b: seq<Event>, c: seq<Event>, e: Event)
    requires !e.MessageEnd?
    ensures MessageEnds(a + b + c + [e]) == MessageEnds(a) + MessageEnds(b) + MessageEnds(c)
  {
    MessageEndsConcat(a + b + c, [e]);
    MessageEndsConcat(a + b, c);
    MessageEndsConcat(a, b);
    MessageEndsOfOne(e);
  }

  lemma MessageEndsOfOpening(first: bool, pending: seq<AgentMessage>)
    ensures MessageEnds(Opening(first, pending)) == pending
  {
    var start: seq<Event> := if first then [] else [TurnStart];
    MessageEndsConcat(start, Pairs(pending));
    NoMessageEnds(start);
    MessageEndsOfPairs(pending);
  }

  lemma MessageEndsOfTurn(s: LoopState, mode: Mode, p: Played)
    requires LegalTurn(s, mode, p)
    ensures MessageEnds(TurnTrace(s, p.turn, mode, p.weave)) == TurnMessages(s, p.turn)
  {
    var b, turn := TurnBatch(s, p.turn), p.turn;
    MessageEndsOfParts(Opening(s.first, s.pending), turn.stream.Trace(), ToolTrace(b, turn, mode, p.weave),
                       TurnEnd(Assistant(turn.stream.result), TurnResults(b, turn)));
    MessageEndsOfOpening(s.first, s.pending);
    MessageEndsOfStream(turn.stream);
    MessageEndsOfTools(s, mode, p);
  }

  lemma MessageEndsOfStart(prompts: seq<AgentMessage>)
    ensures MessageEnds([AgentStart, TurnStart] + Pairs(prompts)) == prompts
  {
    MessageEndsConcat([AgentStart, TurnStart], Pairs(prompts));
    NoMessageEnds([AgentStart, TurnStart]);
    MessageEndsOfPairs(prompts);
  }

  lemma TurnEndsReturned(s: LoopState, mode: Mode, p: Played)
    requires !s.done && LegalTurn(s, mode, p) && MessageEnds(s.trace) == s.newMessages
    ensures var t := TakeTurn(s, p.turn, mode, p.weave);
            MessageEnds(t.trace) == t.newMessages
  {
    var t, trace := TakeTurn(s, p.turn, mode, p.weave), TurnTrace(s, p.turn, mode, p.weave);
    TakeTurnFields(s, p.turn, mode, p.weave);
    MessageEndsOfTurn(s, mode, p);
    MessageEndsConcat(s.trace, trace);
    MessageEndsConcat(s.trace + trace, [AgentEnd(t.newMessages)]);
    MessageEndsOfOne(AgentEnd(t.newMessages));
  }

  /** The messages that have ended are exactly the messages the run returns, in order, on every run
      and under every schedule, whether or not the streams keep their contract. */
  lemma {:induction false} EndedMessagesAreReturned(s0: LoopState, mode: Mode, played: seq<Played>)
    requires LegalRun(s0, mode, played) && MessageEnds(s0.trace) == s0.newMessages
    ensures var s := Run(s0, mode, played);
            MessageEnds(s.trace) == s.newMessages
  {
    if played != [] {
      var n := |played| - 1;
      EndedMessagesAreReturned(s0, mode, played[..n]);
      TurnEndsReturned(Run(s0, mode, played[..n]), mode, played[n]);
    }
  }

  /** The agent's transcript grows by exactly the messages the run returns. */
  lemma TranscriptGrowsByReturned(h: State, context: seq<AgentMessage>, tools: seq<Tool>, prompts: seq<AgentMessage>,
                                  poll: seq<AgentMessage>, mode: Mode, played: seq<Played>)
    requires LegalRun(Start(context, tools, prompts, poll), mode, played)
    ensures var s := Run(Start(context, tools, prompts, poll), mode, played);
            && MessageEnds(s.trace) == s.newMessages
            && Fold(h, s.trace).messages == h.messages + s.newMessages
  {
    MessageEndsOfStart(prompts);
    EndedMessagesAreReturned(Start(context, tools, prompts, poll), mode, played);
    FoldMessages(h, Run(Start(context, tools, prompts, poll), mode, played).trace);
  }

  /** The context and the caller's array against the messages produced so far. */
  predicate ContextAgrees(initial: seq<AgentMessage>, s: LoopState) {
    && (!s.replaced ==> s.context == initial + s.newMessages && s.caller == s.context)
    && s.caller <= initial + s.newMessages
  }

  lemma CloseKeepsContext(initial: seq<AgentMessage>, s: LoopState, turn: Turn, mode: Mode, weave: seq<Event>)
    requires ContextAgrees(initial, s) && turn.stream.WellFormed()
    ensures ContextAgrees(initial, Tend(Close(s, turn, mode, weave)))
  {
    turn.stream.OneSlotIffWellFormed();
    assert ContextMessages(s, turn) == TurnMessages(s, turn);
    Assoc(initial, s.newMessages, TurnMessages(s, turn));
  }

  lemma RefreshKeepsContext(initial: seq<AgentMessage>, s: LoopState, turn: Turn)
    requires ContextAgrees(initial, s)
    ensures ContextAgrees(initial, Refresh(s, turn)) && Refresh(s, turn).caller == s.caller
  {
  }

  lemma DecideKeepsContext(initial: seq<AgentMessage>, s: LoopState, turn: Turn, more: bool)
    requires ContextAgrees(initial, s)
    ensures ContextAgrees(initial, Decide(s, turn, more)) && Decide(s, turn, more).caller == s.caller
    ensures ContextAgrees(initial, Finish(s)) && Finish(s).caller == s.caller
  {
  }

  lemma TakeTurnContext(initial: seq<AgentMessage>, s: LoopState, turn: Turn, mode: Mode, weave: seq<Event>)
    requires ContextAgrees(initial, s) && turn.stream.WellFormed()
    ensures ContextAgrees(initial, TakeTurn(s, turn, mode, weave))
    ensures s.replaced ==> TakeTurn(s, turn, mode, weave).caller == s.caller
  {
    var closed := Tend(Close(s, turn, mode, weave));
    CloseKeepsContext(initial, s, turn, mode, weave);
    RefreshKeepsContext(initial, closed, turn);
    DecideKeepsContext(initial, AfterTurn(s, turn, mode, weave), turn, MoreToolCalls(TurnBatch(s, turn), turn));
  }

  /** The part of the returned messages that goes into the caller's list: all of them up to and including
      the turn after which a hook replaced that list. */
  function CallerShare(s0: LoopState, mode: Mode, played: seq<Played>): seq<AgentMessage> {
    if played == [] then s0.newMessages
    else
      var before := played[..|played| - 1];
      if Run(s0, mode, before).replaced then CallerShare(s0, mode, before) else Run(s0, mode, played).newMessages
  }

  /** Until a hook replaces it, the context is the initial one plus every returned message, and the
      list the loop works on is extended in place. Afterwards that list keeps what it had. */
  lemma {:induction false} ContextTellsTheConversation(
    context: seq<AgentMessage>, tools: seq<Tool>, prompts: seq<AgentMessage>,
    poll: seq<AgentMessage>, mode: Mode, played: seq<Played>)
    requires LegalRun(Start(context, tools, prompts, poll), mode, played) && StreamsWellFormed(played)
    ensures ContextAgrees(context, Run(Start(context, tools, prompts, poll), mode, played))
    ensures var s0 := Start(context, tools, prompts, poll);
            Run(s0, mode, played).caller == context + CallerShare(s0, mode, played)
  {
    if played != [] {
      var n := |played| - 1;
      ContextTellsTheConversation(context, tools, prompts, poll, mode, played[..n]);
      TurnKeepsCaller(context, Run(Start(context, tools, prompts, poll), mode, played[..n]),
                      played[n].turn, mode, played[n].weave);
    }
  }

  lemma TurnKeepsCaller(initial: seq<AgentMessage>, s: LoopState, turn: Turn, mode: Mode, weave: seq<Event>)
    requires ContextAgrees(initial, s) && turn.stream.WellFormed()
    ensures var t := TakeTurn(s, turn, mode, weave);
            ContextAgrees(initial, t) && t.caller == if s.replaced then s.caller else initial + t.newMessages
  {
    var closed := Tend(Close(s, turn, mode, weave));
    TakeTurnContext(initial, s, turn, mode, weave);
    CloseKeepsContext(initial, s, turn, mode, weave);
    RefreshKeepsContext(initial, closed, turn);
    ReplacedByRefresh(s, turn, mode, weave);
    DecideKeepsContext(initial, AfterTurn(s, turn, mode, weave), turn, MoreToolCalls(TurnBatch(s, turn), turn));
  }

  lemma {:induction false} SlotsNeverVanish(stream: Stream)
    ensures |stream.FinalSlots()| >= 1 && (|stream.FinalSlots()| == 1 <==> stream.WellFormed())
  {
    stream.SlotsCountBegins(stream.Length());
  }

  /** What a turn adds to an unreplaced context against what it adds to the returned messages. */
  lemma TurnCounts(s: LoopState, turn: Turn, mode: Mode, weave: seq<Event>)
    ensures var t := TakeTurn(s, turn, mode, weave);
            && t.newMessages == s.newMessages + TurnMessages(s, turn)
            && (!t.replaced ==> !s.replaced && t.context == s.context + ContextMessages(s, turn))
    ensures |ContextMessages(s, turn)| - |TurnMessages(s, turn)| == |turn.stream.FinalSlots()| - 1
  {
    ReplacedByRefresh(s, turn, mode, weave);
  }

  lemma ReplacedByRefresh(s: LoopState, turn: Turn, mode: Mode, weave: seq<Event>)
    ensures var a, t := AfterTurn(s, turn, mode, weave), TakeTurn(s, turn, mode, weave);
            t.replaced == a.replaced && t.context == a.context && t.newMessages == a.newMessages
  {
    var more := MoreToolCalls(TurnBatch(s, turn), turn);
    DecideKeepsRecords(AfterTurn(s, turn, mode, weave), turn, more);
  }

  lemma DecideKeepsRecords(s: LoopState, turn: Turn, more: bool)
    ensures var t := Decide(s, turn, more);
            t.replaced == s.replaced && t.context == s.context && t.newMessages == s.newMessages
  {
  }

  lemma {:induction false} ContextCounts(context: seq<AgentMessage>, tools: seq<Tool>, prompts: seq<AgentMessage>,
                                         poll: seq<AgentMessage>, mode: Mode, played: seq<Played>)
    requires !Run(Start(context, tools, prompts, poll), mode, played).replaced
    ensures var s := Run(Start(context, tools, prompts, poll), mode, played);
            && |s.context| >= |context| + |s.newMessages|
            && (|s.context| == |context| + |s.newMessages| <==> StreamsWellFormed(played))
  {
    if played != [] {
      var n := |played| - 1;
      var s, p := Run(Start(context, tools, prompts, poll), mode, played[..n]), played[n];
      TurnCounts(s, p.turn, mode, p.weave);
      SlotsNeverVanish(p.turn.stream);
      ContextCounts(context, tools, prompts, poll, mode, played[..n]);
      WellFormedSnoc(played);
    }
  }

  /** A context that no hook has replaced is the initial one plus the returned messages if and only if the
      streams keep their contract. */
  lemma ContextAgreesIff(context: seq<AgentMessage>, tools: seq<Tool>, prompts: seq<AgentMessage>,
                         poll: seq<AgentMessage>, mode: Mode, played: seq<Played>)
    requires LegalRun(Start(context, tools, prompts, poll), mode, played)
    requires !Run(Start(context, tools, prompts, poll), mode, played).replaced
    ensures var s := Run(Start(context, tools, prompts, poll), mode, played);
            s.context == context + s.newMessages <==> StreamsWellFormed(played)
  {
    ContextCounts(context, tools, prompts, poll, mode, played);
    if StreamsWellFormed(played) {
      ContextTellsTheConversation(context, tools, prompts, poll, mode, played);
    }
  }
}
