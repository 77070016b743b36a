/** The event protocol of a run as an independent monitor: it reads one event at a time and knows
    nothing about contexts, queues or schedulers. */
module Protocol {
  import opened Options
  import opened Messages
  import opened HostState
  import opened ToolBatch
  import opened Streaming

  datatype Monitor =
    | Fresh
    | Begun
    /** Inside a turn, no message open; `streamed` if the last message can only be the reply. */
    | Between(ended: seq<AgentMessage>, last: Option<AgentMessage>, streamed: bool)
    | Open(ended: seq<AgentMessage>, shown: AgentMessage, updated: bool)
    /** Serving the tool calls of `reply`. */
    | Tools(ended: seq<AgentMessage>, reply: AssistantMessage, started: nat, running: multiset<string>,
            unreported: multiset<ToolResultMessage>, results: seq<ToolResultMessage>,
            reporting: Option<ToolResultMessage>)
    | TurnOver(ended: seq<AgentMessage>, failed: bool)
    | Finished(ended: seq<AgentMessage>)
    | Broken

  function Serving(ended: seq<AgentMessage>, reply: AssistantMessage): Monitor {
    Tools(ended, reply, 0, multiset{}, multiset{}, [], None)
  }

  function Step(q: Monitor, e: Event): Monitor {
    match q
    case Fresh => if e == AgentStart then Begun else Broken
    case Begun => if e == TurnStart then Between([], None, false) else Broken
    case Between(_, _, _) => StepBetween(q, e)
    case Open(_, _, _) => StepOpen(q, e)
    case Tools(_, _, _, _, _, _, _) => StepTools(q, e)
    case TurnOver(ended, failed) =>
      if e == TurnStart && !failed then Between(ended, None, false)
      else if e == AgentEnd(ended) then Finished(ended)
      else Broken
    case _ => Broken
  }

  function StepBetween(q: Monitor, e: Event): Monitor
    requires q.Between?
  {
    match e
    case MessageStart(m) => if q.streamed then Broken else Open(q.ended, m, false)
    case ToolExecutionStart(_, _, _) =>
      if q.last.Some? && q.last.value.Assistant? && !Failed(q.last.value.assistant)
      then StepTools(Serving(q.ended, q.last.value.assistant), e)
      else Broken
    case TurnEnd(m, results) =>
      if q.last == Some(m) && m.Assistant? && results == [] &&
         (Failed(m.assistant) || ToolCalls(m.assistant) == [])
      then TurnOver(q.ended, Failed(m.assistant))
      else Broken
    case _ => Broken
  }

  function StepOpen(q: Monitor, e: Event): Monitor
    requires q.Open?
  {
    match e
    case MessageUpdate(m) =>
      if q.shown.Assistant? && m.Assistant? then q.(updated := true) else Broken
    case MessageEnd(m) =>
      var streamed := q.updated || m != q.shown;
      if streamed && !(q.shown.Assistant? && m.Assistant?) then Broken
      else Between(q.ended + [m], Some(m), streamed)
    case _ => Broken
  }

  function StepTools(q: Monitor, e: Event): Monitor
    requires q.Tools?
  {
    var calls := ToolCalls(q.reply);
    match e
    case ToolExecutionStart(id, _, _) =>
      if q.reporting.None? && q.started < |calls| && e == StartEvent(calls[q.started])
      then q.(started := q.started + 1, running := q.running + multiset{id})
      else Broken
    case ToolExecutionUpdate(id, _, _, _) =>
      if id in q.running then q else Broken
    case ToolExecutionEnd(id, name, output, isError) =>
      if id in q.running
      then q.(running := q.running - multiset{id},
              unreported := q.unreported +
                            multiset{ToolResultMessage(id, name, output.content, output.details, isError)})
      else Broken
    case MessageStart(ToolResult(r)) =>
      if q.reporting.None? && |q.results| < q.started && |q.results| < |calls| && r in q.unreported &&
         r.toolCallId == calls[|q.results|].id && r.toolName == calls[|q.results|].name
      then q.(reporting := Some(r))
      else Broken
    case MessageEnd(ToolResult(r)) =>
      if q.reporting == Some(r)
      then q.(ended := q.ended + [ToolResult(r)], results := q.results + [r],
              unreported := q.unreported - multiset{r}, reporting := None)
      else Broken
    case TurnEnd(m, results) =>
      if m == Assistant(q.reply) && results == q.results && |results| == q.started &&
         q.running == multiset{} && q.unreported == multiset{} && q.reporting.None?
      then TurnOver(q.ended, false)
      else Broken
    case _ => Broken
  }

  function Feed(q: Monitor, trace: seq<Event>): Monitor {
    if trace == [] then q
    else Step(Feed(q, trace[..|trace| - 1]), trace[|trace| - 1])
  }

  lemma FeedSnoc(q: Monitor, trace: seq<Event>, e: Event)
    ensures Feed(q, trace + [e]) == Step(Feed(q, trace), e)
  {
    assert (trace + [e])[..|trace|] == trace;
  }

  lemma {:induction false} FeedConcat(q: Monitor, a: seq<Event>, b: seq<Event>)
    ensures Feed(q, a + b) == Feed(Feed(q, a), b)
  {
    if b == [] {
      assert a + b == a;
    } else {
      var init, e := b[..|b| - 1], b[|b| - 1];
      assert b == init + [e];
      Assoc(a, init, [e]);
      FeedConcat(q, a, init);
      FeedSnoc(q, a + init, e);
      FeedSnoc(Feed(q, a), init, e);
    }
  }

  lemma FeedOne(q: Monitor, e: Event)
    ensures Feed(q, [e]) == Step(q, e)
  {
    assert [e][..0] == [];
  }

  lemma FeedTwo(q: Monitor, e: Event, f: Event)
    ensures Feed(q, [e, f]) == Step(Step(q, e), f)
  {
    FeedOne(q, e);
    assert [e, f][..1] == [e];
  }

  /** The monitor agrees with the trace on which messages have ended. */
  lemma {:induction false} EndedAreMessageEnds(trace: seq<Event>)
    ensures var q := Feed(Fresh, trace);
            !q.Fresh? && !q.Begun? && !q.Broken? ==> q.ended == MessageEnds(trace)
    ensures Feed(Fresh, trace).Fresh? || Feed(Fresh, trace).Begun? ==> MessageEnds(trace) == []
  {
    if trace != [] {
      EndedAreMessageEnds(trace[..|trace| - 1]);
    }
  }

  /** The message the monitor regards as open. */
  predicate MessageOpen(q: Monitor) {
    q.Open? || (q.Tools? && q.reporting.Some?)
  }

  /** Along every legal trace the host shows a streaming message exactly while one is open. */
  lemma {:induction false} StreamingWhileOpen(s: State, trace: seq<Event>)
    requires s.streamingMessage.None? && !Feed(Fresh, trace).Broken?
    ensures Fold(s, trace).streamingMessage.Some? <==> MessageOpen(Feed(Fresh, trace))
  {
    if trace != [] {
      var q := Feed(Fresh, trace[..|trace| - 1]);
      if !q.Broken? {
        StreamingWhileOpen(s, trace[..|trace| - 1]);
      }
    }
  }

  lemma {:induction false} FeedPairs(q: Monitor, messages: seq<AgentMessage>)
    requires q.Between? && !q.streamed
    ensures Feed(q, Pairs(messages))
         == Between(q.ended + messages,
                    if messages == [] then q.last else Some(messages[|messages| - 1]), false)
  {
    if messages == [] {
      assert q.ended + messages == q.ended;
    } else {
      var n := |messages| - 1;
      var m := messages[n];
      FeedPairs(q, messages[..n]);
      FeedConcat(q, Pairs(messages[..n]), [MessageStart(m), MessageEnd(m)]);
      FeedTwo(Feed(q, Pairs(messages[..n])), MessageStart(m), MessageEnd(m));
      assert q.ended + messages[..n] + [m] == q.ended + messages;
    }
  }

  lemma FeedDelta(q: Monitor, s: Stream, k: nat)
    requires 0 < k <= s.Length() && s.events[k - 1].Delta? && s.Slots(k - 1) != []
    requires var q' := Feed(q, s.Shown(k - 1)); q'.Open? && q'.shown.Assistant?
    ensures Feed(q, s.Shown(k)) == Feed(q, s.Shown(k - 1)).(updated := true)
  {
    FeedSnoc(q, s.Shown(k - 1), MessageUpdate(Assistant(s.events[k - 1].partial)));
  }

  lemma {:induction false} FeedShown(q: Monitor, s: Stream, k: nat)
    requires q.Between? && !q.streamed && k <= s.Length() && s.Begins(k) <= 1
    ensures s.Begins(k) == 0 ==> s.Shown(k) == []
    ensures s.Begins(k) == 1 ==> Feed(q, s.Shown(k)).Open? && Feed(q, s.Shown(k)).ended == q.ended
                                 && Feed(q, s.Shown(k)).shown.Assistant?
  {
    if k > 0 {
      FeedShown(q, s, k - 1);
      s.SlotsCountBegins(k - 1);
      if s.events[k - 1].Begin? {
        FeedOne(q, MessageStart(Assistant(s.events[k - 1].partial)));
        assert s.Shown(k) == [MessageStart(Assistant(s.events[k - 1].partial))];
      } else if s.Begins(k) == 1 {
        FeedDelta(q, s, k);
      }
    }
  }

  lemma FeedStream(q: Monitor, s: Stream)
    requires q.Between? && !q.streamed && s.WellFormed()
    ensures var q' := Feed(q, s.Trace());
            q'.Between? && q'.ended == q.ended + [Assistant(s.result)] && q'.last == Some(Assistant(s.result))
  {
    FeedShown(q, s, s.Length());
    s.SlotsCountBegins(s.Length());
    if s.Begins(s.Length()) == 0 {
      FeedUnannounced(q, s);
    } else {
      FeedAnnounced(q, s);
    }
  }

  lemma FeedUnannounced(q: Monitor, s: Stream)
    requires q.Between? && !q.streamed && s.Shown(s.Length()) == [] && s.Slots(s.Length()) == []
    ensures var q' := Feed(q, s.Trace());
            q'.Between? && q'.ended == q.ended + [Assistant(s.result)] && q'.last == Some(Assistant(s.result))
  {
    var final := Assistant(s.result);
    assert s.Trace() == [MessageStart(final), MessageEnd(final)];
    FeedTwo(q, MessageStart(final), MessageEnd(final));
  }

  lemma FeedAnnounced(q: Monitor, s: Stream)
    requires s.Slots(s.Length()) != []
    requires var q' := Feed(q, s.Shown(s.Length())); q'.Open? && q'.shown.Assistant?
    ensures var before, q' := Feed(q, s.Shown(s.Length())), Feed(q, s.Trace());
            && q'.Between? && q'.ended == before.ended + [Assistant(s.result)]
            && q'.last == Some(Assistant(s.result))
  {
    var shown := s.Shown(s.Length());
    assert shown + [] == shown;
    FeedSnoc(q, shown, MessageEnd(Assistant(s.result)));
  }

  /** The first announcement turns the reply into the message being served. */
  lemma {:induction false} EnterTools(q: Monitor, reply: AssistantMessage, trace: seq<Event>)
    requires q.Between? && q.last == Some(Assistant(reply)) && !Failed(reply)
    requires trace != [] && trace[0].ToolExecutionStart?
    ensures Feed(q, trace) == Feed(Serving(q.ended, reply), trace)
  {
    if |trace| == 1 {
      assert trace == [trace[0]];
      FeedOne(q, trace[0]);
      FeedOne(Serving(q.ended, reply), trace[0]);
    } else {
      EnterTools(q, reply, trace[..|trace| - 1]);
    }
  }

  lemma {:induction false} FeedUpdates(q: Monitor, r: CallRecord, m: nat)
    requires m <= |r.updates| && q.Tools? && r.call.id in q.running
    ensures Feed(q, Updates(r, m)) == q
  {
    if m > 0 {
      FeedUpdates(q, r, m - 1);
      assert Updates(r, m)[..m - 1] == Updates(r, m - 1);
    }
  }

  /** Reporting a result is legal exactly for the next call whose end has been seen. */
  lemma FeedReport(q: Monitor, r: ToolResultMessage)
    requires q.Tools? && q.reporting.None? && |q.results| < q.started && r in q.unreported
    requires var calls := ToolCalls(q.reply);
             && |q.results| < |calls|
             && r.toolCallId == calls[|q.results|].id && r.toolName == calls[|q.results|].name
    ensures Feed(q, [MessageStart(ToolResult(r)), MessageEnd(ToolResult(r))])
         == q.(ended := q.ended + [ToolResult(r)], results := q.results + [r],
               unreported := q.unreported - multiset{r})
  {
    FeedTwo(q, MessageStart(ToolResult(r)), MessageEnd(ToolResult(r)));
    assert Step(q, MessageStart(ToolResult(r))) == q.(reporting := Some(r));
  }

  lemma StepStart(q: Monitor, call: ToolCall)
    requires q.Tools? && q.reporting.None? && q.started < |ToolCalls(q.reply)|
    requires call == ToolCalls(q.reply)[q.started]
    ensures Step(q, StartEvent(call)) == q.(started := q.started + 1, running := q.running + multiset{call.id})
  {
  }

  lemma StepEnd(q: Monitor, f: Finalized, rest: multiset<string>)
    requires q.Tools? && q.running == rest + multiset{f.call.id}
    ensures Step(q, EndEvent(f)) == q.(running := rest, unreported := q.unreported + multiset{ResultMessage(f)})
  {
    assert rest + multiset{f.call.id} - multiset{f.call.id} == rest;
  }

  /** The monitor after the calls in `records` have been served one by one. */
  function Served(ended: seq<AgentMessage>, reply: AssistantMessage, records: seq<CallRecord>): Monitor {
    Tools(ended + AsMessages(Results(records)), reply, |records|, multiset{}, multiset{}, Results(records), None)
  }

  lemma ServedNone(ended: seq<AgentMessage>, reply: AssistantMessage)
    ensures Served(ended, reply, []) == Serving(ended, reply)
  {
    assert ended + AsMessages(Results([])) == ended;
  }

  lemma ServedNext(ended: seq<AgentMessage>, reply: AssistantMessage, records: seq<CallRecord>, r: CallRecord)
    ensures Served(ended, reply, records + [r])
         == Tools(ended + AsMessages(Results(records)) + [ToolResult(ResultMessage(r.final))], reply, |records| + 1,
                  multiset{}, multiset{}, Results(records) + [ResultMessage(r.final)], None)
  {
    GrowResults(records, r);
    var m := ResultMessage(r.final);
    assert AsMessages(Results(records) + [m]) == AsMessages(Results(records)) + [ToolResult(m)];
    Assoc(ended, AsMessages(Results(records)), [ToolResult(m)]);
  }

  lemma FeedToEnd(q: Monitor, r: CallRecord)
    requires q.Tools? && q.reporting.None? && q.running == multiset{} && q.unreported == multiset{}
    requires q.started < |ToolCalls(q.reply)| && r.call == ToolCalls(q.reply)[q.started]
    requires r.final.call == r.call
    ensures Feed(q, [StartEvent(r.call)] + AllUpdates(r) + [EndEvent(r.final)])
         == q.(started := q.started + 1, unreported := multiset{ResultMessage(r.final)})
  {
    var start, end := StartEvent(r.call), EndEvent(r.final);
    var q1 := q.(started := q.started + 1, running := multiset{r.call.id});
    FeedConcat(q, [start] + AllUpdates(r), [end]);
    FeedConcat(q, [start], AllUpdates(r));
    FeedOne(q, start);
    StepStart(q, r.call);
    FeedUpdates(q1, r, |r.updates|);
    FeedOne(q1, end);
    StepEnd(q1, r.final, multiset{});
  }

  lemma FeedCallSection(q: Monitor, r: CallRecord)
    requires q.Tools? && q.reporting.None? && q.running == multiset{} && q.unreported == multiset{}
    requires q.started == |q.results| < |ToolCalls(q.reply)| && r.call == ToolCalls(q.reply)[q.started]
    requires r.final.call == r.call
    ensures Feed(q, CallSection(r))
         == q.(ended := q.ended + [ToolResult(ResultMessage(r.final))], started := q.started + 1,
               results := q.results + [ResultMessage(r.final)])
  {
    var m := ResultMessage(r.final);
    FeedToEnd(q, r);
    FeedConcat(q, [StartEvent(r.call)] + AllUpdates(r) + [EndEvent(r.final)], ResultPair(r));
    FeedReport(q.(started := q.started + 1, unreported := multiset{m}), m);
    assert multiset{m} - multiset{m} == multiset{};
  }

  lemma {:induction false} FeedSequential(ended: seq<AgentMessage>, reply: AssistantMessage, records: seq<CallRecord>)
    requires Coherent(records) && Calls(records) <= ToolCalls(reply)
    ensures Feed(Serving(ended, reply), SequentialTrace(records)) == Served(ended, reply, records)
  {
    if records == [] {
      ServedNone(ended, reply);
    } else {
      var n := |records| - 1;
      assert records == records[..n] + [records[n]];
      assert Calls(records)[n] == ToolCalls(reply)[n];
      FeedSequential(ended, reply, records[..n]);
      FeedConcat(Serving(ended, reply), SequentialTrace(records[..n]), CallSection(records[n]));
      FeedCallSection(Served(ended, reply, records[..n]), records[n]);
      ServedNext(ended, reply, records[..n], records[n]);
    }
  }
}
