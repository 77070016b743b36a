/** The host's set of pending tool calls at every moment of a whole run. */
module PendingRuns {
  import opened Messages
  import opened HostState
  import opened ToolBatch
  import opened Streaming
  import opened LoopSpec
  import opened LoopTheorems
  import opened BatchTheorems
  import opened RecordTheorems
  import opened PendingCalls

  /** The pending ids are those started and not ended. */
  predicate Exact(h: State, trace: seq<Event>) {
    Fold(h, trace).pendingToolCalls == StartedIds(trace) - EndedIds(trace)
  }

  lemma {:induction false} RestartShows(h: State, trace: seq<Event>)
    requires h.pendingToolCalls == {} && !NoRestart(trace)
    ensures exists m :: 0 <= m <= |trace| && !Exact(h, trace[..m])
  {
    var n := |trace| - 1;
    if NoRestart(trace[..n]) {
      assert trace[..|trace|] == trace;
      assert trace[n].toolCallId in Fold(h, trace).pendingToolCalls && trace[n].toolCallId in EndedIds(trace);
      assert !Exact(h, trace[..|trace|]);
    } else {
      RestartShows(h, trace[..n]);
      var m :| 0 <= m <= n && !Exact(h, trace[..n][..m]);
      assert trace[..n][..m] == trace[..m];
    }
  }

  /** Exactly when the pending ids are right at every moment of a trace: no call is announced again under
      an id that has ended. */
  lemma PendingExactlyIff(h: State, trace: seq<Event>)
    requires h.pendingToolCalls == {}
    ensures (forall m :: 0 <= m <= |trace| ==> Exact(h, trace[..m])) <==> NoRestart(trace)
  {
    if NoRestart(trace) {
      forall m | 0 <= m <= |trace|
        ensures Exact(h, trace[..m])
      {
        NoRestartPrefix(trace, m);
        PendingIsStartedMinusEnded(h, trace[..m]);
      }
    } else {
      RestartShows(h, trace);
    }
  }

  /** Every turn's calls have ids of their own, none of which has ended before in the run. */
  predicate IdsAreNew(s: LoopState, turn: Turn) {
    var b := TurnBatch(s, turn);
    ServesTools(b, turn) ==> DistinctIds(b.Taken()) && IdSet(b.Taken()) !! EndedIds(s.trace)
  }

  predicate IdsStayNew(s0: LoopState, mode: Mode, played: seq<Played>) {
    played != [] ==>
      var n := |played| - 1;
      IdsStayNew(s0, mode, played[..n]) && IdsAreNew(Run(s0, mode, played[..n]), played[n].turn)
  }

  lemma {:induction false} PairsAreMessages(messages: seq<AgentMessage>)
    ensures forall e :: e in Pairs(messages) ==> e.MessageStart? || e.MessageEnd?
  {
    if messages != [] {
      PairsAreMessages(messages[..|messages| - 1]);
    }
  }

  lemma OpeningStartsNothing(first: bool, pending: seq<AgentMessage>, stream: Stream)
    ensures NoRestart(Opening(first, pending) + stream.Trace())
    ensures StartedIds(Opening(first, pending) + stream.Trace()) == {}
    ensures EndedIds(Opening(first, pending) + stream.Trace()) == {}
  {
    var trace := Opening(first, pending) + stream.Trace();
    PairsAreMessages(pending);
    ShownEndsNothing(stream, stream.Length());
    assert forall e :: e in trace ==> !e.ToolExecutionStart? && !e.ToolExecutionEnd?;
    NothingStarts(trace);
    NothingEnds(trace);
  }

  lemma {:induction false} NothingEnds(trace: seq<Event>)
    requires forall e :: e in trace ==> !e.ToolExecutionEnd?
    ensures EndedIds(trace) == {}
  {
    if trace != [] {
      var init := trace[..|trace| - 1];
      assert forall e :: e in init ==> e in trace;
      assert trace[|trace| - 1] in trace;
      NothingEnds(init);
    }
  }

  lemma {:induction false} StartedAmongIds(records: seq<CallRecord>)
    requires Coherent(records)
    ensures StartedIds(SequentialTrace(records)) <= IdSet(records)
    ensures StartedIds(Announcements(records)) <= IdSet(records)
  {
    if records != [] {
      var n := |records| - 1;
      var r := records[n];
      assert records == records[..n] + [r];
      StartedAmongIds(records[..n]);
      IdSetSnoc(records[..n], r);
      CallSectionIds(r);
      AnnouncementIds(r);
      IdsConcat(SequentialTrace(records[..n]), CallSection(r));
      IdsConcat(Announcements(records[..n]), Announcement(r));
    }
  }

  lemma SectionStarts(b: Batch, mode: Mode, weave: seq<Event>)
    requires DistinctIds(b.Taken()) && b.Allows(mode, weave)
    ensures NoRestart(b.Section(mode, weave)) && StartedIds(b.Section(mode, weave)) <= IdSet(b.Taken())
  {
    b.TakenIsPrefix();
    var records := b.Taken();
    StartedAmongIds(records);
    if b.ForcedSequential(mode) {
      DistinctNeverRestart(records);
    } else {
      ConcurrentNeverRestarts(records, weave);
      WeaveRunsOnly(records, weave);
      ResultPairsAreMessages(records);
      NothingStarts(weave);
      NothingStarts(ResultPairs(records));
      IdsConcat(Announcements(records), weave);
      IdsConcat(Announcements(records) + weave, ResultPairs(records));
    }
  }

  /** A turn whose ids are new starts nothing else and restarts nothing. */
  lemma TurnNeverRestarts(s: LoopState, mode: Mode, p: Played)
    requires LegalTurn(s, mode, p) && IdsAreNew(s, p.turn)
    ensures NoRestart(TurnTrace(s, p.turn, mode, p.weave))
    ensures StartedIds(TurnTrace(s, p.turn, mode, p.weave)) !! EndedIds(s.trace)
  {
    var b := TurnBatch(s, p.turn);
    var opening, tools := Opening(s.first, s.pending) + p.turn.stream.Trace(), ToolTrace(b, p.turn, mode, p.weave);
    var end := TurnEnd(Assistant(p.turn.stream.result), TurnResults(b, p.turn));
    OpeningStartsNothing(s.first, s.pending, p.turn.stream);
    if ServesTools(b, p.turn) {
      SectionStarts(b, mode, p.weave);
    }
    NoRestartConcat(opening, tools);
    IdsConcat(opening, tools);
    IdsOfOne(end);
    NoRestartConcat(opening + tools, [end]);
    IdsConcat(opening + tools, [end]);
  }

  lemma ExtendNeverRestarts(before: seq<Event>, events: seq<Event>, e: Event)
    requires NoRestart(before) && NoRestart(events) && StartedIds(events) !! EndedIds(before)
    requires !e.ToolExecutionStart?
    ensures NoRestart(before + events) && NoRestart(before + events + [e])
  {
    NoRestartConcat(before, events);
    IdsOfOne(e);
    NoRestartConcat(before + events, [e]);
  }

  lemma {:induction false} RunNeverRestarts(context: seq<AgentMessage>, tools: seq<Tool>, prompts: seq<AgentMessage>,
                                            poll: seq<AgentMessage>, mode: Mode, played: seq<Played>)
    requires LegalRun(Start(context, tools, prompts, poll), mode, played)
    requires IdsStayNew(Start(context, tools, prompts, poll), mode, played)
    ensures NoRestart(Run(Start(context, tools, prompts, poll), mode, played).trace)
  {
    if played == [] {
      PairsAreMessages(prompts);
      NothingStarts([AgentStart, TurnStart] + Pairs(prompts));
    } else {
      var n := |played| - 1;
      var s, p := Run(Start(context, tools, prompts, poll), mode, played[..n]), played[n];
      RunNeverRestarts(context, tools, prompts, poll, mode, played[..n]);
      TurnNeverRestarts(s, mode, p);
      ExtendNeverRestarts(s.trace, TurnTrace(s, p.turn, mode, p.weave),
                          AgentEnd(TakeTurn(s, p.turn, mode, p.weave).newMessages));
      TakeTurnFields(s, p.turn, mode, p.weave);
    }
  }

  /** With ids that stay new, at every moment of a whole run, in either mode and under every schedule,
      the pending ids are exactly those started and not yet ended. */
  lemma RunPendsExactly(h: State, context: seq<AgentMessage>, tools: seq<Tool>, prompts: seq<AgentMessage>,
                        poll: seq<AgentMessage>, mode: Mode, played: seq<Played>, m: nat)
    requires h.pendingToolCalls == {}
    requires LegalRun(Start(context, tools, prompts, poll), mode, played)
    requires IdsStayNew(Start(context, tools, prompts, poll), mode, played)
    requires m <= |Run(Start(context, tools, prompts, poll), mode, played).trace|
    ensures Exact(h, Run(Start(context, tools, prompts, poll), mode, played).trace[..m])
  {
    RunNeverRestarts(context, tools, prompts, poll, mode, played);
    PendingExactlyIff(h, Run(Start(context, tools, prompts, poll), mode, played).trace);
  }
}
