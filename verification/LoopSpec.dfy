/** The agent run as a fold of turns over a value: what every record of the conversation is after
    each turn, given everything the outside world answered in it. */
module LoopSpec {
  import opened Options
  import opened Messages
  import opened ToolBatch
  import opened Streaming

  /** A context handed back by `prepareNextTurn`: with a list of messages of its own, or, if `messages`
      is `None`, with the list the loop is working on. */
  datatype Snapshot = Snapshot(messages: Option<seq<AgentMessage>>, tools: seq<Tool>)

  /** The outside world during one turn: the provider's stream, the fate of each tool call, the hooks
      after the turn and what the queues hold when they are polled. */
  datatype Turn = Turn(
    stream: Stream,
    fate: nat -> Fate,
    snapshot: Option<Snapshot>,
    stop: bool,
    steering: seq<AgentMessage>,
    followUp: seq<AgentMessage>)

  datatype Poll = Steering(messages: seq<AgentMessage>) | FollowUp(messages: seq<AgentMessage>)

  /** What one finished turn added to the conversation. `more` records whether its tool batch asked
      for another turn. */
  datatype TurnRecord = TurnRecord(
    injected: seq<AgentMessage>,
    reply: AssistantMessage,
    results: seq<ToolResultMessage>,
    more: bool)

  /** The loop at a turn boundary. `caller` is the array of the initial context, which the loop stops
      extending once a snapshot has `replaced` its list. */
  datatype LoopState = LoopState(
    context: seq<AgentMessage>,
    tools: seq<Tool>,
    caller: seq<AgentMessage>,
    replaced: bool,
    newMessages: seq<AgentMessage>,
    trace: seq<Event>,
    pending: seq<AgentMessage>,
    first: bool,
    done: bool,
    log: seq<TurnRecord>,
    polls: seq<Poll>)

  /** The loop as `runAgentLoop` enters it; a continuation is the case without prompts. */
  function Start(context: seq<AgentMessage>, tools: seq<Tool>, prompts: seq<AgentMessage>,
                 initialPoll: seq<AgentMessage>): LoopState
  {
    LoopState(context + prompts, tools, context + prompts, false, prompts,
              [AgentStart, TurnStart] + Pairs(prompts), initialPoll, true, false, [], [Steering(initialPoll)])
  }

  function TurnBatch(s: LoopState, turn: Turn): Batch {
    Batch(ToolCalls(turn.stream.result), s.tools, turn.fate)
  }

  /** Opening a turn: `turn_start` unless the run just began, then the pending messages. */
  function Opening(first: bool, pending: seq<AgentMessage>): seq<Event> {
    (if first then [] else [TurnStart]) + Pairs(pending)
  }

  /** A failed reply ends the run before its tool calls are looked at. */
  predicate ServesTools(b: Batch, turn: Turn) {
    !Failed(turn.stream.result) && b.calls != []
  }

  function ToolTrace(b: Batch, turn: Turn, mode: Mode, weave: seq<Event>): seq<Event> {
    if ServesTools(b, turn) then b.Section(mode, weave) else []
  }

  function TurnResults(b: Batch, turn: Turn): seq<ToolResultMessage> {
    if ServesTools(b, turn) then Results(b.Taken()) else []
  }

  predicate MoreToolCalls(b: Batch, turn: Turn) {
    ServesTools(b, turn) && !ShouldTerminate(Finals(b.Taken()))
  }

  /** The events of a turn, up to and including `turn_end`. */
  function TurnTrace(s: LoopState, turn: Turn, mode: Mode, weave: seq<Event>): seq<Event> {
    var b := TurnBatch(s, turn);
    Opening(s.first, s.pending) + turn.stream.Trace() + ToolTrace(b, turn, mode, weave) +
    [TurnEnd(Assistant(turn.stream.result), TurnResults(b, turn))]
  }

  /** The messages a turn adds to `newMessages`. */
  function TurnMessages(s: LoopState, turn: Turn): seq<AgentMessage> {
    s.pending + [Assistant(turn.stream.result)] + AsMessages(TurnResults(TurnBatch(s, turn), turn))
  }

  /** The messages a turn adds to the context. */
  function ContextMessages(s: LoopState, turn: Turn): seq<AgentMessage> {
    s.pending + turn.stream.FinalSlots() + AsMessages(TurnResults(TurnBatch(s, turn), turn))
  }

  function RecordOf(s: LoopState, turn: Turn): TurnRecord {
    var b := TurnBatch(s, turn);
    TurnRecord(s.pending, turn.stream.result, TurnResults(b, turn), MoreToolCalls(b, turn))
  }

  /** The state at `turn_end`. */
  function Close(s: LoopState, turn: Turn, mode: Mode, weave: seq<Event>): LoopState {
    s.(context := s.context + ContextMessages(s, turn),
       newMessages := s.newMessages + TurnMessages(s, turn),
       trace := s.trace + TurnTrace(s, turn, mode, weave),
       pending := [],
       first := false,
       log := s.log + [RecordOf(s, turn)])
  }

  /** The caller's array after a turn: it grows with the context until that is replaced. */
  function Tend(s: LoopState): LoopState {
    if s.replaced then s else s.(caller := s.context)
  }

  /** `prepareNextTurn` may replace the context. */
  function Refresh(s: LoopState, turn: Turn): LoopState {
    match turn.snapshot
    case None => s
    case Some(Snapshot(None, tools)) => s.(tools := tools)
    case Some(Snapshot(Some(messages), tools)) => s.(context := messages, tools := tools, replaced := true)
  }

  function Finish(s: LoopState): LoopState {
    s.(trace := s.trace + [AgentEnd(s.newMessages)], done := true)
  }

  /** The decision after a completed turn: stop, inject what was polled, or go on. */
  function Decide(s: LoopState, turn: Turn, more: bool): LoopState {
    if turn.stop then Finish(s)
    else if more || turn.steering != [] then
      s.(pending := turn.steering, polls := s.polls + [Steering(turn.steering)])
    else if turn.followUp != [] then
      s.(pending := turn.followUp, polls := s.polls + [Steering([]), FollowUp(turn.followUp)])
    else Finish(s.(polls := s.polls + [Steering([]), FollowUp([])]))
  }

  /** The state once a turn and its hooks are over, before the queues are polled. */
  function AfterTurn(s: LoopState, turn: Turn, mode: Mode, weave: seq<Event>): LoopState {
    var closed := Tend(Close(s, turn, mode, weave));
    if Failed(turn.stream.result) then closed else Refresh(closed, turn)
  }

  /** One turn of the run. */
  function TakeTurn(s: LoopState, turn: Turn, mode: Mode, weave: seq<Event>): LoopState {
    var after := AfterTurn(s, turn, mode, weave);
    if Failed(turn.stream.result) then Finish(after)
    else Decide(after, turn, MoreToolCalls(TurnBatch(s, turn), turn))
  }

  /** A turn together with how the scheduler wove its concurrent calls. */
  datatype Played = Played(turn: Turn, weave: seq<Event>)

  function Run(s: LoopState, mode: Mode, played: seq<Played>): LoopState {
    if played == [] then s
    else
      var n := |played| - 1;
      TakeTurn(Run(s, mode, played[..n]), played[n].turn, mode, played[n].weave)
  }

  /** The schedule of a turn is one its batch allows. */
  ghost predicate LegalTurn(s: LoopState, mode: Mode, p: Played) {
    ServesTools(TurnBatch(s, p.turn), p.turn) ==> TurnBatch(s, p.turn).Allows(mode, p.weave)
  }

  /** The turns a run can take from `s`: every schedule is legal and none is taken after the end. */
  ghost predicate LegalRun(s: LoopState, mode: Mode, played: seq<Played>) {
    played != [] ==>
      var n := |played| - 1;
      && LegalRun(s, mode, played[..n])
      && !Run(s, mode, played[..n]).done
      && LegalTurn(Run(s, mode, played[..n]), mode, played[n])
  }

  lemma RunSnoc(s: LoopState, mode: Mode, played: seq<Played>, p: Played)
    requires LegalRun(s, mode, played) && !Run(s, mode, played).done
    requires LegalTurn(Run(s, mode, played), mode, p)
    ensures LegalRun(s, mode, played + [p])
    ensures Run(s, mode, played + [p]) == TakeTurn(Run(s, mode, played), p.turn, mode, p.weave)
  {
    assert (played + [p])[..|played|] == played;
  }
}
