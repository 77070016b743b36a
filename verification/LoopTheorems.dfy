/** What every run of the agent loop guarantees, whatever the provider, the tools, the hooks, the
    queues and the scheduler do. A run is any `played` with `LegalRun(Start(...), mode, played)`. */
module LoopTheorems {
  import opened Options
  import opened Messages
  import opened HostState
  import opened ToolBatch
  import opened Streaming
  import opened LoopSpec
  import opened Protocol
  import opened ConcurrentProtocol

  /** Every stream of the run keeps its contract. */
  predicate StreamsWellFormed(played: seq<Played>) {
    forall i :: 0 <= i < |played| ==> played[i].turn.stream.WellFormed()
  }

  lemma WellFormedSnoc(played: seq<Played>)
    requires played != []
    ensures StreamsWellFormed(played) <==>
              StreamsWellFormed(played[..|played| - 1]) && played[|played| - 1].turn.stream.WellFormed()
  {
    assert forall i :: 0 <= i < |played| - 1 ==> played[..|played| - 1][i] == played[i];
  }

  // ---------------------------------------------------------------- the event grammar

  /** Where the monitor stands at each turn boundary. */
  predicate AtBoundary(s: LoopState) {
    var q := Feed(Fresh, s.trace);
    if s.done then q == Finished(s.newMessages)
    else if s.first then q.Between? && q.ended == s.newMessages && !q.streamed
    else q == TurnOver(s.newMessages, false)
  }

  lemma StartAtBoundary(context: seq<AgentMessage>, tools: seq<Tool>, prompts: seq<AgentMessage>, poll: seq<AgentMessage>)
    ensures AtBoundary(Start(context, tools, prompts, poll))
  {
    FeedTwo(Fresh, AgentStart, TurnStart);
    FeedConcat(Fresh, [AgentStart, TurnStart], Pairs(prompts));
    FeedPairs(Between([], None, false), prompts);
    assert [] + prompts == prompts;
  }

  lemma FeedOpening(q: Monitor, first: bool, ended: seq<AgentMessage>, pending: seq<AgentMessage>)
    requires if first then q.Between? && q.ended == ended && !q.streamed else q == TurnOver(ended, false)
    ensures var q' := Feed(q, Opening(first, pending));
            q'.Between? && q'.ended == ended + pending && !q'.streamed
  {
    FeedConcat(q, if first then [] else [TurnStart], Pairs(pending));
    if first {
      FeedPairs(q, pending);
    } else {
      FeedOne(q, TurnStart);
      FeedPairs(Between(ended, None, false), pending);
    }
  }

  lemma FeedTools(q: Monitor, s: LoopState, turn: Turn, mode: Mode, weave: seq<Event>)
    requires q.Between? && q.last == Some(Assistant(turn.stream.result))
    requires LegalTurn(s, mode, Played(turn, weave))
    ensures var b := TurnBatch(s, turn);
            Feed(Feed(q, ToolTrace(b, turn, mode, weave)),
                 [TurnEnd(Assistant(turn.stream.result), TurnResults(b, turn))]) ==
            TurnOver(q.ended + AsMessages(TurnResults(b, turn)), Failed(turn.stream.result))
  {
    var b, reply := TurnBatch(s, turn), turn.stream.result;
    var end := TurnEnd(Assistant(reply), TurnResults(b, turn));
    if ServesTools(b, turn) {
      FeedSection(q, reply, b, mode, weave);
      FeedOne(Served(q.ended, reply, b.Taken()), end);
    } else {
      FeedOne(q, end);
      assert q.ended + AsMessages([]) == q.ended;
    }
  }

  lemma FeedTurn(q: Monitor, s: LoopState, turn: Turn, mode: Mode, weave: seq<Event>)
    requires LegalTurn(s, mode, Played(turn, weave)) && turn.stream.WellFormed()
    requires if s.first then q.Between? && q.ended == s.newMessages && !q.streamed else q == TurnOver(s.newMessages, false)
    ensures Feed(q, TurnTrace(s, turn, mode, weave))
         == TurnOver(s.newMessages + TurnMessages(s, turn), Failed(turn.stream.result))
  {
    var b := TurnBatch(s, turn);
    var opening, shown := Opening(s.first, s.pending), turn.stream.Trace();
    var end := [TurnEnd(Assistant(turn.stream.result), TurnResults(b, turn))];
    FeedConcat(q, opening + shown + ToolTrace(b, turn, mode, weave), end);
    FeedConcat(q, opening + shown, ToolTrace(b, turn, mode, weave));
    FeedConcat(q, opening, shown);
    FeedOpening(q, s.first, s.newMessages, s.pending);
    FeedStream(Feed(q, opening), turn.stream);
    FeedTools(Feed(q, opening + shown), s, turn, mode, weave);
    TurnMessagesAssoc(s.newMessages, s.pending, [Assistant(turn.stream.result)], AsMessages(TurnResults(b, turn)));
  }

  lemma TurnMessagesAssoc<T>(a: seq<T>, b: seq<T>, c: seq<T>, d: seq<T>)
    ensures a + b + c + d == a + (b + c + d)
  {
    Assoc(a, b, c);
    Assoc(a, b + c, d);
  }

  /** How a turn leaves the fields that hooks and queues do not touch. */
  lemma AfterTurnFields(s: LoopState, turn: Turn, mode: Mode, weave: seq<Event>)
    ensures var t := AfterTurn(s, turn, mode, weave);
            && !t.first && t.done == s.done
            && t.newMessages == s.newMessages + TurnMessages(s, turn)
            && t.log == s.log + [RecordOf(s, turn)]
            && t.polls == s.polls && t.pending == []
            && t.trace == s.trace + TurnTrace(s, turn, mode, weave)
  {
  }

  lemma DecideFields(s: LoopState, turn: Turn, more: bool)
    requires !s.done
    ensures var t := Decide(s, turn, more);
            && t.first == s.first && t.newMessages == s.newMessages && t.log == s.log
            && t.trace == (if t.done then s.trace + [AgentEnd(t.newMessages)] else s.trace)
  {
  }

  lemma TakeTurnFields(s: LoopState, turn: Turn, mode: Mode, weave: seq<Event>)
    requires !s.done
    ensures var t := TakeTurn(s, turn, mode, weave);
            && !t.first
            && t.newMessages == s.newMessages + TurnMessages(s, turn)
            && t.log == s.log + [RecordOf(s, turn)]
            && t.trace == (if t.done then s.trace + TurnTrace(s, turn, mode, weave) + [AgentEnd(t.newMessages)]
                           else s.trace + TurnTrace(s, turn, mode, weave))
            && (!t.done ==> !Failed(turn.stream.result))
  {
    AfterTurnFields(s, turn, mode, weave);
    DecideFields(AfterTurn(s, turn, mode, weave), turn, MoreToolCalls(TurnBatch(s, turn), turn));
  }

  lemma BoundaryAfter(t: LoopState, trace: seq<Event>, failed: bool)
    requires !t.first && t.trace == (if t.done then trace + [AgentEnd(t.newMessages)] else trace)
    requires Feed(Fresh, trace) == TurnOver(t.newMessages, failed) && (failed ==> t.done)
    ensures AtBoundary(t)
  {
    FeedSnoc(Fresh, trace, AgentEnd(t.newMessages));
  }

  lemma TurnKeepsBoundary(s: LoopState, mode: Mode, p: Played)
    requires !s.done && AtBoundary(s) && LegalTurn(s, mode, p) && p.turn.stream.WellFormed()
    ensures AtBoundary(TakeTurn(s, p.turn, mode, p.weave))
  {
    var t, events := TakeTurn(s, p.turn, mode, p.weave), TurnTrace(s, p.turn, mode, p.weave);
    TakeTurnFields(s, p.turn, mode, p.weave);
    FeedConcat(Fresh, s.trace, events);
    FeedTurn(Feed(Fresh, s.trace), s, p.turn, mode, p.weave);
    BoundaryAfter(t, s.trace + events, Failed(p.turn.stream.result));
  }

  /** The trace of every run follows the protocol at every turn boundary, and a finished run's trace
      ends in the one `agent_end`, which carries exactly the messages the run returns. */
  lemma {:induction false} TraceFollowsProtocol(context: seq<AgentMessage>, tools: seq<Tool>, prompts: seq<AgentMessage>,
                                                poll: seq<AgentMessage>, mode: Mode, played: seq<Played>)
    requires LegalRun(Start(context, tools, prompts, poll), mode, played) && StreamsWellFormed(played)
    ensures AtBoundary(Run(Start(context, tools, prompts, poll), mode, played))
  {
    if played == [] {
      StartAtBoundary(context, tools, prompts, poll);
    } else {
      var n := |played| - 1;
      TraceFollowsProtocol(context, tools, prompts, poll, mode, played[..n]);
      TurnKeepsBoundary(Run(Start(context, tools, prompts, poll), mode, played[..n]), mode, played[n]);
    }
  }

  lemma {:induction false} BrokenStays(q: Monitor, trace: seq<Event>)
    requires q.Broken?
    ensures Feed(q, trace).Broken?
  {
    if trace != [] {
      BrokenStays(q, trace[..|trace| - 1]);
    }
  }

  /** While a run lasts, the host shows a streaming message exactly while a message is open. */
  lemma HostShowsOpenMessage(h: State, context: seq<AgentMessage>, tools: seq<Tool>, prompts: seq<AgentMessage>,
                             poll: seq<AgentMessage>, mode: Mode, played: seq<Played>, m: nat)
    requires LegalRun(Start(context, tools, prompts, poll), mode, played) && StreamsWellFormed(played)
    requires m <= |Run(Start(context, tools, prompts, poll), mode, played).trace| && h.streamingMessage.None?
    ensures var prefix := Run(Start(context, tools, prompts, poll), mode, played).trace[..m];
            && !Feed(Fresh, prefix).Broken?
            && (Fold(h, prefix).streamingMessage.Some? <==> MessageOpen(Feed(Fresh, prefix)))
  {
    var s := Run(Start(context, tools, prompts, poll), mode, played);
    TraceFollowsProtocol(context, tools, prompts, poll, mode, played);
    BoundaryIsUnbroken(s, m);
    StreamingWhileOpen(h, s.trace[..m]);
  }

  lemma BoundaryIsUnbroken(s: LoopState, m: nat)
    requires AtBoundary(s) && m <= |s.trace|
    ensures !Feed(Fresh, s.trace[..m]).Broken?
  {
    assert s.trace == s.trace[..m] + s.trace[m..];
    FeedConcat(Fresh, s.trace[..m], s.trace[m..]);
    if Feed(Fresh, s.trace[..m]).Broken? {
      BrokenStays(Feed(Fresh, s.trace[..m]), s.trace[m..]);
    }
  }

  lemma FeedSecondStart(q: Monitor, s: Stream, k: nat)
    requires q.Between? && !q.streamed && k < s.Length() && s.Begins(k) == 1 && s.events[k].Begin?
    ensures Feed(q, s.Shown(k + 1)).Broken?
  {
    FeedShown(q, s, k);
    FeedSnoc(q, s.Shown(k), MessageStart(Assistant(s.events[k].partial)));
  }

  lemma ShownStaysBroken(q: Monitor, s: Stream, k: nat)
    requires k < s.Length() && Feed(q, s.Shown(k)).Broken?
    ensures Feed(q, s.Shown(k + 1)).Broken?
  {
    var rest := s.Shown(k + 1)[|s.Shown(k)|..];
    assert s.Shown(k + 1) == s.Shown(k) + rest;
    FeedConcat(q, s.Shown(k), rest);
    BrokenStays(Feed(q, s.Shown(k)), rest);
  }

  lemma {:induction false} FeedStale(q: Monitor, s: Stream, k: nat)
    requires q.Between? && !q.streamed && k <= s.Length() && s.Begins(k) >= 2
    ensures Feed(q, s.Shown(k)).Broken?
  {
    if s.Begins(k - 1) >= 2 {
      FeedStale(q, s, k - 1);
      ShownStaysBroken(q, s, k - 1);
    } else {
      FeedSecondStart(q, s, k - 1);
    }
  }

  /** The stream contract is what the protocol rests on: a stream that announces a second `start`
      breaks the trace at once. */
  lemma StreamKeepsProtocolIffWellFormed(q: Monitor, s: Stream)
    requires q.Between? && !q.streamed
    ensures Feed(q, s.Trace()).Broken? <==> !s.WellFormed()
  {
    if s.WellFormed() {
      FeedStream(q, s);
    } else {
      var shown := s.Shown(s.Length());
      FeedStale(q, s, s.Length());
      assert s.Trace() == shown + s.Trace()[|shown|..];
      FeedConcat(q, shown, s.Trace()[|shown|..]);
      BrokenStays(Feed(q, shown), s.Trace()[|shown|..]);
    }
  }

  /** A turn with such a stream breaks the trace of the run. */
  lemma StaleTurnBreaks(s: LoopState, mode: Mode, p: Played)
    requires !s.done && AtBoundary(s) && !p.turn.stream.WellFormed()
    ensures Feed(Fresh, s.trace + TurnTrace(s, p.turn, mode, p.weave)).Broken?
  {
    var q, opening, shown := Feed(Fresh, s.trace), Opening(s.first, s.pending), p.turn.stream.Trace();
    var trace := TurnTrace(s, p.turn, mode, p.weave);
    FeedOpening(q, s.first, s.newMessages, s.pending);
    StreamKeepsProtocolIffWellFormed(Feed(q, opening), p.turn.stream);
    FeedConcat(q, opening, shown);
    StartOfTurn(s, p.turn, mode, p.weave);
    StaysBroken(q, opening + shown, trace);
    FeedConcat(Fresh, s.trace, trace);
  }

  lemma StartOfTurn(s: LoopState, turn: Turn, mode: Mode, weave: seq<Event>)
    ensures Opening(s.first, s.pending) + turn.stream.Trace() <= TurnTrace(s, turn, mode, weave)
  {
  }

  lemma StaysBroken(q: Monitor, trace: seq<Event>, longer: seq<Event>)
    requires trace <= longer && Feed(q, trace).Broken?
    ensures Feed(q, longer).Broken?
  {
    assert longer == trace + longer[|trace|..];
    FeedConcat(q, trace, longer[|trace|..]);
    BrokenStays(Feed(q, trace), longer[|trace|..]);
  }

  lemma TurnExtends(s: LoopState, mode: Mode, p: Played)
    requires !s.done
    ensures var t := TakeTurn(s, p.turn, mode, p.weave);
            s.trace + TurnTrace(s, p.turn, mode, p.weave) <= t.trace && s.trace <= t.trace
  {
    TakeTurnFields(s, p.turn, mode, p.weave);
  }

  lemma {:induction false} StaleRunIsBroken(context: seq<AgentMessage>, tools: seq<Tool>, prompts: seq<AgentMessage>,
                                            poll: seq<AgentMessage>, mode: Mode, played: seq<Played>)
    requires LegalRun(Start(context, tools, prompts, poll), mode, played) && !StreamsWellFormed(played)
    ensures Feed(Fresh, Run(Start(context, tools, prompts, poll), mode, played).trace).Broken?
  {
    var n := |played| - 1;
    WellFormedSnoc(played);
    if StreamsWellFormed(played[..n]) {
      TraceFollowsProtocol(context, tools, prompts, poll, mode, played[..n]);
    } else {
      StaleRunIsBroken(context, tools, prompts, poll, mode, played[..n]);
    }
    StaleStep(Run(Start(context, tools, prompts, poll), mode, played[..n]), mode, played[n]);
  }

  lemma StaleStep(s: LoopState, mode: Mode, p: Played)
    requires !s.done && (Feed(Fresh, s.trace).Broken? || (AtBoundary(s) && !p.turn.stream.WellFormed()))
    ensures Feed(Fresh, TakeTurn(s, p.turn, mode, p.weave).trace).Broken?
  {
    var t := TakeTurn(s, p.turn, mode, p.weave);
    TurnExtends(s, mode, p);
    if Feed(Fresh, s.trace).Broken? {
      StaysBroken(Fresh, s.trace, t.trace);
    } else {
      StaleTurnBreaks(s, mode, p);
      StaysBroken(Fresh, s.trace + TurnTrace(s, p.turn, mode, p.weave), t.trace);
    }
  }

  /** A run follows the protocol if and only if its streams keep their contract. */
  lemma RunFollowsProtocolIff(context: seq<AgentMessage>, tools: seq<Tool>, prompts: seq<AgentMessage>,
                              poll: seq<AgentMessage>, mode: Mode, played: seq<Played>)
    requires LegalRun(Start(context, tools, prompts, poll), mode, played)
    ensures AtBoundary(Run(Start(context, tools, prompts, poll), mode, played)) <==> StreamsWellFormed(played)
  {
    if StreamsWellFormed(played) {
      TraceFollowsProtocol(context, tools, prompts, poll, mode, played);
    } else {
      StaleRunIsBroken(context, tools, prompts, poll, mode, played);
    }
  }
}
