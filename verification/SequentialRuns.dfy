/** Turns of a run whose tool calls are forced to run one by one. */
module SequentialRuns {
  import opened Messages
  import opened HostState
  import opened ToolBatch
  import opened Streaming
  import opened LoopSpec
  import opened BatchTheorems
  import opened RecordTheorems
  import opened RunTheorems
  import opened PendingCalls
  import opened PendingRuns
  import opened Announcing

  ghost predicate PendsOne(h: State, trace: seq<Event>) {
    |Fold(h, trace).pendingToolCalls| <= 1
  }

  lemma QuietPendsNothing(h: State, trace: seq<Event>, m: nat)
    requires h.pendingToolCalls == {} && m <= |trace| && forall e :: e in trace ==> !e.ToolExecutionStart?
    ensures PendsOne(h, trace[..m])
  {
    assert forall e :: e in trace[..m] ==> e in trace;
    OnlyThisId(h, trace[..m], "");
    SmallSet(Fold(h, trace[..m]).pendingToolCalls, "");
  }

  lemma OpeningPendsNothing(h: State, first: bool, pending: seq<AgentMessage>, stream: Stream, m: nat)
    requires h.pendingToolCalls == {} && m <= |Opening(first, pending) + stream.Trace()|
    ensures PendsOne(h, (Opening(first, pending) + stream.Trace())[..m])
  {
    PairsAreMessages(pending);
    ShownEndsNothing(stream, stream.Length());
    QuietPendsNothing(h, Opening(first, pending) + stream.Trace(), m);
  }

  lemma AfterOpening(h: State, first: bool, pending: seq<AgentMessage>, stream: Stream)
    requires IsClear(h)
    ensures IsClear(Fold(h, Opening(first, pending) + stream.Trace()))
  {
    FoldConcat(h, Opening(first, pending), stream.Trace());
    FoldOpening(h, first, pending);
    FoldStream(Fold(h, Opening(first, pending)), stream);
  }

  lemma TurnPendsOne(h: State, s: LoopState, mode: Mode, p: Played, m: nat)
    requires IsClear(h) && LegalTurn(s, mode, p) && TurnBatch(s, p.turn).ForcedSequential(mode)
    requires m <= |TurnTrace(s, p.turn, mode, p.weave)|
    ensures PendsOne(h, TurnTrace(s, p.turn, mode, p.weave)[..m])
  {
    var b, trace := TurnBatch(s, p.turn), TurnTrace(s, p.turn, mode, p.weave);
    var opening, tools := Opening(s.first, s.pending) + p.turn.stream.Trace(), ToolTrace(b, p.turn, mode, p.weave);
    var n := |opening|;
    if m <= n {
      OpeningPendsNothing(h, s.first, s.pending, p.turn.stream, m);
      assert trace[..m] == opening[..m];
    } else if m <= n + |tools| {
      AfterOpening(h, s.first, s.pending, p.turn.stream);
      ToolsPendOne(Fold(h, opening), b, p.turn, mode, p.weave, m - n);
      ThenPendsOne(h, opening, tools, trace, m);
    } else {
      assert trace[..m] == trace;
      FoldTurn(h, s, mode, p);
    }
  }

  lemma ToolsPendOne(h: State, b: Batch, turn: Turn, mode: Mode, weave: seq<Event>, m: nat)
    requires IsClear(h) && b.ForcedSequential(mode) && m <= |ToolTrace(b, turn, mode, weave)|
    ensures PendsOne(h, ToolTrace(b, turn, mode, weave)[..m])
  {
    b.TakenIsPrefix();
    if ServesTools(b, turn) {
      SequentialPendsOne(h, b.Taken(), m);
    }
  }

  /** `m` events into `whole` is some way into its second stretch. */
  lemma ThenPendsOne(h: State, first: seq<Event>, second: seq<Event>, whole: seq<Event>, m: nat)
    requires first + second <= whole && |first| <= m <= |first| + |second|
    requires PendsOne(Fold(h, first), second[..m - |first|])
    ensures PendsOne(h, whole[..m])
  {
    assert whole[..m] == (first + second)[..m] == first + second[..m - |first|];
    FoldConcat(h, first, second[..m - |first|]);
  }

  /** At every moment of a turn that runs its calls one by one, in any run, at most one call is pending,
      even if ids repeat. */
  lemma RunPendsOne(h: State, context: seq<AgentMessage>, tools: seq<Tool>, prompts: seq<AgentMessage>,
                    poll: seq<AgentMessage>, mode: Mode, played: seq<Played>, k: nat, s: LoopState, p: Played, m: nat)
    requires IsClear(h) && LegalRun(Start(context, tools, prompts, poll), mode, played)
    requires k < |played| && s == Run(Start(context, tools, prompts, poll), mode, played[..k]) && p == played[k]
    requires TurnBatch(s, p.turn).ForcedSequential(mode)
    requires |s.trace| <= m <= |s.trace| + |TurnTrace(s, p.turn, mode, p.weave)|
    requires m <= |Run(Start(context, tools, prompts, poll), mode, played).trace|
    ensures PendsOne(h, Run(Start(context, tools, prompts, poll), mode, played).trace[..m])
  {
    TurnStartsClear(h, context, tools, prompts, poll, mode, played, k, s, p);
    StretchPendsOne(h, s, mode, p, Run(Start(context, tools, prompts, poll), mode, played).trace, m);
  }

  lemma StretchPendsOne(h: State, s: LoopState, mode: Mode, p: Played, whole: seq<Event>, m: nat)
    requires IsClear(Fold(h, s.trace)) && LegalTurn(s, mode, p) && TurnBatch(s, p.turn).ForcedSequential(mode)
    requires s.trace + TurnTrace(s, p.turn, mode, p.weave) <= whole
    requires |s.trace| <= m <= |s.trace| + |TurnTrace(s, p.turn, mode, p.weave)|
    ensures PendsOne(h, whole[..m])
  {
    TurnPendsOne(Fold(h, s.trace), s, mode, p, m - |s.trace|);
    ThenPendsOne(h, s.trace, TurnTrace(s, p.turn, mode, p.weave), whole, m);
  }

  lemma TurnStartsClear(h: State, context: seq<AgentMessage>, tools: seq<Tool>, prompts: seq<AgentMessage>,
                        poll: seq<AgentMessage>, mode: Mode, played: seq<Played>, k: nat, s: LoopState, p: Played)
    requires IsClear(h) && LegalRun(Start(context, tools, prompts, poll), mode, played)
    requires k < |played| && s == Run(Start(context, tools, prompts, poll), mode, played[..k]) && p == played[k]
    ensures LegalTurn(s, mode, p) && IsClear(Fold(h, s.trace))
    ensures s.trace + TurnTrace(s, p.turn, mode, p.weave)
         <= Run(Start(context, tools, prompts, poll), mode, played).trace
  {
    TurnIsStretch(Start(context, tools, prompts, poll), mode, played, k);
    LegalPrefix(Start(context, tools, prompts, poll), mode, played, k);
    HostIsClearBetweenTurns(h, context, tools, prompts, poll, mode, played[..k]);
  }
}
