/** The life of an agent over arbitrary sequences of calls. Each await-free stretch of the agent's code
    is one action, so any interleaving of user calls with the events of a run is a sequence of them. */
module Lifecycle {
  import opened Options
  import opened Messages
  import opened HostState
  import opened Queues
  import opened Polling

  /** The active run. `undisturbed` holds until `reset()` is called while it lasts. */
  datatype ActiveRun = ActiveRun(id: nat, aborted: bool, undisturbed: bool)

  /** `feed` holds the queues as the latest run polls them. `started` counts the runs so far; `settled`
      lists those whose promise has been resolved. */
  datatype AgentState = AgentState(host: State, feed: Feed, active: Option<ActiveRun>, started: nat, settled: seq<nat>)

  datatype Action =
    | Prompt(messages: seq<AgentMessage>)
    | Continue
    | Steer(message: AgentMessage)
    | QueueFollowUp(message: AgentMessage)
    | SetSteeringMode(mode: QueueMode)
    | SetFollowUpMode(mode: QueueMode)
    | ClearSteering
    | ClearFollowUps
    | Abort
    | Reset
    /** The run's executor at work: an event, a poll, a normal return, or a throw after which the failure
        handler gets `delivered` of its four events through before a listener throws again. */
    | Emit(event: Event)
    | PollSteering
    | PollFollowUps
    | Return
    | Throw(error: string, delivered: nat)
    /** A concurrent call of a run that has settled by a throw is still at work. */
    | Late(event: Event)

  datatype Answer =
    | Done
    | Refused
    | RunStarted(prompts: seq<AgentMessage>)
    | RunContinued
    | Handed(messages: seq<AgentMessage>)

  /** The executor acts only while its run is active, but for the calls it has left behind. */
  predicate Enabled(a: AgentState, action: Action) {
    match action
    case Emit(_) => a.active.Some?
    case PollSteering => a.active.Some?
    case PollFollowUps => a.active.Some?
    case Return => a.active.Some?
    case Throw(_, delivered) => a.active.Some? && 1 <= delivered <= 4
    case Late(event) => a.settled != [] && (event.ToolExecutionUpdate? || event.ToolExecutionEnd?)
    case _ => true
  }

  function FailureMessage(aborted: bool, error: string): AgentMessage {
    Assistant(AssistantMessage([Text("")], if aborted then Aborted else Error, Some(error)))
  }

  function FailureEvents(message: AgentMessage): seq<Event> {
    [MessageStart(message), MessageEnd(message), TurnEnd(message, []), AgentEnd([message])]
  }

  function Begin(a: AgentState, skip: bool): AgentState {
    a.(active := Some(ActiveRun(a.started, false, true)),
       feed := a.feed.(skipInitialSteeringPoll := skip),
       started := a.started + 1,
       host := a.host.(isStreaming := true, streamingMessage := None, errorMessage := None))
  }

  function Finish(a: AgentState): AgentState
    requires a.active.Some?
  {
    a.(active := None,
       settled := a.settled + [a.active.value.id],
       host := a.host.(isStreaming := false, streamingMessage := None, pendingToolCalls := {}))
  }

  function ContinueStep(a: AgentState): (AgentState, Answer) {
    var messages, steering, followUp := a.host.messages, a.feed.steering, a.feed.followUp;
    if a.active.Some? || messages == [] then (a, Refused)
    else if !messages[|messages| - 1].Assistant? then (Begin(a, false), RunContinued)
    else if steering.messages != [] then
      (Begin(a.(feed := a.feed.(steering := Apply(steering, Drain))), true),
       RunStarted(Drained(steering.mode, steering.messages)))
    else
      // The empty steering queue has been drained, which changes nothing but its history.
      var b := a.(feed := a.feed.(steering := Apply(steering, Drain), followUp := Apply(followUp, Drain)));
      if followUp.messages != [] then (Begin(b, false), RunStarted(Drained(followUp.mode, followUp.messages)))
      else (b, Refused)
  }

  function ReceiveStep(a: AgentState, arrival: Arrival): AgentState {
    a.(feed := a.feed.ReceiveOne(arrival))
  }

  function Step(a: AgentState, action: Action): (AgentState, Answer)
    requires Enabled(a, action)
  {
    match action
    case Prompt(messages) => if a.active.Some? then (a, Refused) else (Begin(a, false), RunStarted(messages))
    case Continue => ContinueStep(a)
    case Steer(m) => (ReceiveStep(a, ToSteering(Enqueue(m))), Done)
    case QueueFollowUp(m) => (ReceiveStep(a, ToFollowUp(Enqueue(m))), Done)
    case SetSteeringMode(mode) => (ReceiveStep(a, ToSteering(SetMode(mode))), Done)
    case SetFollowUpMode(mode) => (ReceiveStep(a, ToFollowUp(SetMode(mode))), Done)
    case ClearSteering => (ReceiveStep(a, ToSteering(Clear)), Done)
    case ClearFollowUps => (ReceiveStep(a, ToFollowUp(Clear)), Done)
    case Abort =>
      (if a.active.Some? then a.(active := Some(a.active.value.(aborted := true))) else a, Done)
    case Reset =>
      (a.(host := State([], false, None, {}, None),
          feed := a.feed.(steering := Apply(a.feed.steering, Clear), followUp := Apply(a.feed.followUp, Clear)),
          active := if a.active.Some? then Some(a.active.value.(undisturbed := false)) else None), Done)
    case Emit(event) => (a.(host := Reduce(a.host, event)), Done)
    case PollSteering => (a.(feed := a.feed.PollSteering()), Handed(a.feed.SteeringAnswer()))
    case PollFollowUps => (a.(feed := a.feed.PollFollowUp()), Handed(a.feed.FollowUpAnswer()))
    case Return => (Finish(a), Done)
    case Throw(error, delivered) =>
      var events := FailureEvents(FailureMessage(a.active.value.aborted, error))[..delivered];
      (Finish(a.(host := Fold(a.host, events))), Done)
    // The reducer acts before the agent finds that no run is active, if none is.
    case Late(event) => (a.(host := Reduce(a.host, event)), Done)
  }

  /** `actions` can be taken one after the other from `a`. */
  predicate Admissible(a: AgentState, actions: seq<Action>)
    decreases |actions|, 0
  {
    actions != [] ==>
      var n := |actions| - 1;
      Admissible(a, actions[..n]) && Enabled(After(a, actions[..n]), actions[n])
  }

  function After(a: AgentState, actions: seq<Action>): AgentState
    requires Admissible(a, actions)
    decreases |actions|, 1
  {
    if actions == [] then a
    else
      var n := |actions| - 1;
      Step(After(a, actions[..n]), actions[n]).0
  }

  function NewAgent(transcript: seq<AgentMessage>, steeringMode: QueueMode, followUpMode: QueueMode): AgentState {
    AgentState(State(transcript, false, None, {}, None),
               Feed(Queue([], steeringMode, [], []), Queue([], followUpMode, [], []), false), None, 0, [])
  }

  /** At most one run is active, every other run ever started has settled, once and in order; an idle
      agent is clean; it counts as streaming exactly during a run that nobody reset; and neither queue
      has lost or repeated a message. */
  predicate Sound(a: AgentState) {
    && (a.active.None? ==> a.host.streamingMessage.None? && a.host.pendingToolCalls == {})
    && (a.host.isStreaming <==> a.active.Some? && a.active.value.undisturbed)
    && (forall i :: 0 <= i < |a.settled| ==> a.settled[i] == i)
    && a.started == |a.settled| + (if a.active.Some? then 1 else 0)
    && (a.active.Some? ==> a.active.value.id == |a.settled|)
    && Conserves(a.feed.steering) && Conserves(a.feed.followUp)
  }

  lemma BeginSound(a: AgentState, skip: bool)
    requires Sound(a) && a.active.None?
    ensures Sound(Begin(a, skip))
  {
  }

  lemma FinishSound(a: AgentState)
    requires Sound(a) && a.active.Some?
    ensures Sound(Finish(a))
  {
  }

  lemma FeedSound(a: AgentState, feed: Feed)
    requires Sound(a) && Conserves(feed.steering) && Conserves(feed.followUp)
    ensures Sound(a.(feed := feed))
  {
  }

  lemma ReceiveSound(a: AgentState, arrival: Arrival)
    requires Sound(a)
    ensures Sound(ReceiveStep(a, arrival))
  {
    match arrival
    case ToSteering(change) => ApplyConserves(a.feed.steering, change);
    case ToFollowUp(change) => ApplyConserves(a.feed.followUp, change);
  }

  lemma StepSound(a: AgentState, action: Action)
    requires Sound(a) && Enabled(a, action)
    ensures Sound(Step(a, action).0)
  {
    match action
    case Prompt(_) =>
      if a.active.None? {
        BeginSound(a, false);
      }
    case Continue =>
      ContinueSound(a);
    case Steer(m) => ReceiveSound(a, ToSteering(Enqueue(m)));
    case QueueFollowUp(m) => ReceiveSound(a, ToFollowUp(Enqueue(m)));
    case SetSteeringMode(mode) => ReceiveSound(a, ToSteering(SetMode(mode)));
    case SetFollowUpMode(mode) => ReceiveSound(a, ToFollowUp(SetMode(mode)));
    case ClearSteering => ReceiveSound(a, ToSteering(Clear));
    case ClearFollowUps => ReceiveSound(a, ToFollowUp(Clear));
    case Abort =>
    case Reset =>
      ApplyConserves(a.feed.steering, Clear);
      ApplyConserves(a.feed.followUp, Clear);
    case Emit(_) =>
    case PollSteering => ApplyConserves(a.feed.steering, Drain);
    case PollFollowUps => ApplyConserves(a.feed.followUp, Drain);
    case Return => FinishSound(a);
    case Throw(error, delivered) =>
      var events := FailureEvents(FailureMessage(a.active.value.aborted, error))[..delivered];
      FoldMessages(a.host, events);
      FinishSound(a.(host := Fold(a.host, events)));
    case Late(_) =>
  }

  lemma ContinueSound(a: AgentState)
    requires Sound(a)
    ensures Sound(ContinueStep(a).0)
  {
    var f := a.feed;
    ApplyConserves(f.steering, Drain);
    ApplyConserves(f.followUp, Drain);
    var steered := a.(feed := f.(steering := Apply(f.steering, Drain)));
    var both := a.(feed := f.(steering := Apply(f.steering, Drain), followUp := Apply(f.followUp, Drain)));
    FeedSound(a, steered.feed);
    FeedSound(a, both.feed);
    if a.active.None? {
      BeginSound(a, false);
      BeginSound(steered, true);
      BeginSound(both, false);
    }
  }

  /** Lifecycle safety over every sequence of calls. */
  lemma {:induction false} AlwaysSound(transcript: seq<AgentMessage>, steeringMode: QueueMode, followUpMode: QueueMode,
                                       actions: seq<Action>)
    requires Admissible(NewAgent(transcript, steeringMode, followUpMode), actions)
    ensures Sound(After(NewAgent(transcript, steeringMode, followUpMode), actions))
  {
    if actions != [] {
      var n := |actions| - 1;
      AlwaysSound(transcript, steeringMode, followUpMode, actions[..n]);
      StepSound(After(NewAgent(transcript, steeringMode, followUpMode), actions[..n]), actions[n]);
    }
  }

  /** `continue()` never takes a message out of a queue and then fails to start the run with it. It is
      refused exactly while a run is active, on an empty transcript, and on a reply with nothing queued. */
  lemma ContinueStartsOrKeeps(a: AgentState)
    ensures var (b, answer) := ContinueStep(a);
            var messages, f, g := a.host.messages, a.feed, b.feed;
            && (answer.Refused? <==>
                  || a.active.Some? || messages == []
                  || (messages[|messages| - 1].Assistant? && f.steering.messages == [] && f.followUp.messages == []))
            && (answer.Refused? ==> b.active == a.active && b.host == a.host
                                    && g.steering.messages == f.steering.messages
                                    && g.followUp.messages == f.followUp.messages)
            && (answer.RunStarted? ==> b.active.Some? && answer.prompts != []
                                       && answer.prompts + g.steering.messages + g.followUp.messages
                                          == f.steering.messages + f.followUp.messages)
            && (answer.RunContinued? ==> b.active.Some? && g.steering == f.steering && g.followUp == f.followUp)
  {
    RefusedIff(a);
    StartTakesFirst(a);
  }

  lemma RefusedIff(a: AgentState)
    ensures var (b, answer) := ContinueStep(a);
            var messages, f, g := a.host.messages, a.feed, b.feed;
            && (answer.Refused? <==>
                  || a.active.Some? || messages == []
                  || (messages[|messages| - 1].Assistant? && f.steering.messages == [] && f.followUp.messages == []))
            && (answer.Refused? ==> b.active == a.active && b.host == a.host
                                    && g.steering.messages == f.steering.messages
                                    && g.followUp.messages == f.followUp.messages)
            && (!answer.Refused? ==> b.active.Some?)
            && (answer.RunContinued? ==> g.steering == f.steering && g.followUp == f.followUp)
  {
    DrainSplits(a.feed.steering);
    DrainSplits(a.feed.followUp);
  }

  lemma StartTakesFirst(a: AgentState)
    ensures var (b, answer) := ContinueStep(a);
            var f, g := a.feed, b.feed;
            answer.RunStarted? ==>
              && answer.prompts != []
              && answer.prompts + g.steering.messages + g.followUp.messages == f.steering.messages + f.followUp.messages
  {
    DrainSplits(a.feed.steering);
    DrainSplits(a.feed.followUp);
    if a.feed.steering.messages == [] {
      assert [] + a.feed.followUp.messages == a.feed.followUp.messages;
      var handed := Drained(a.feed.followUp.mode, a.feed.followUp.messages);
      assert handed + [] == handed;
    }
  }

  lemma DrainSplits(q: Queue)
    ensures var handed, rest := Drained(q.mode, q.messages), Apply(q, Drain).messages;
            && handed + rest == q.messages
            && (handed == [] <==> q.messages == [])
            && (q.messages == [] ==> rest == [])
  {
  }

  /** A throw settles the run whatever the failure handler does. The transcript gains exactly one failure
      message, marked aborted if and only if the signal was, unless a listener throws on its very first
      event. */
  lemma ThrowSettles(a: AgentState, error: string, delivered: nat)
    requires a.active.Some? && 1 <= delivered <= 4
    ensures var b := Step(a, Throw(error, delivered)).0;
            && b.active.None? && b.settled == a.settled + [a.active.value.id]
            && !b.host.isStreaming && b.host.streamingMessage.None? && b.host.pendingToolCalls == {}
            && b.host.messages == a.host.messages +
                 (if delivered >= 2 then [FailureMessage(a.active.value.aborted, error)] else [])
            && (delivered >= 3 && error != "" ==> b.host.errorMessage == Some(error))
  {
    var m := FailureMessage(a.active.value.aborted, error);
    var events := FailureEvents(m);
    FoldTake(a.host, events, 0);
    FoldTake(a.host, events, 1);
    FoldTake(a.host, events, 2);
    FoldTake(a.host, events, 3);
  }

  lemma FoldTake(h: State, events: seq<Event>, k: nat)
    requires k < |events|
    ensures Fold(h, events[..k + 1]) == Reduce(Fold(h, events[..k]), events[k])
  {
    assert events[..k + 1][..k] == events[..k];
  }

  /** Whether the signal of the run that is active after `actions` has been raised: an abort came
      after that run began. */
  predicate SignalRaised(a: AgentState, actions: seq<Action>)
    requires Admissible(a, actions)
  {
    if actions == [] then a.active.Some? && a.active.value.aborted
    else
      var n := |actions| - 1;
      var before := After(a, actions[..n]);
      if before.active.None? then false
      else actions[n] == Abort || SignalRaised(a, actions[..n])
  }

  lemma {:induction false} SignalIsTracked(a: AgentState, actions: seq<Action>)
    requires Admissible(a, actions) && After(a, actions).active.Some?
    ensures After(a, actions).active.value.aborted == SignalRaised(a, actions)
  {
    if actions != [] {
      var n := |actions| - 1;
      if After(a, actions[..n]).active.Some? {
        SignalIsTracked(a, actions[..n]);
      }
    }
  }

  /** The transcript as its readers know it: completed messages and failure messages since the last reset. */
  function Transcript(a: AgentState, actions: seq<Action>): seq<AgentMessage>
    requires Admissible(a, actions)
  {
    if actions == [] then a.host.messages
    else
      var n := |actions| - 1;
      var before := Transcript(a, actions[..n]);
      match actions[n]
      case Emit(MessageEnd(m)) => before + [m]
      case Throw(error, delivered) =>
        if delivered >= 2 then before + [FailureMessage(SignalRaised(a, actions[..n]), error)] else before
      case Reset => []
      case _ => before
  }

  /** Over every sequence of calls the agent's messages are that transcript. */
  lemma {:induction false} TranscriptIsKept(a: AgentState, actions: seq<Action>)
    requires Admissible(a, actions)
    ensures After(a, actions).host.messages == Transcript(a, actions)
  {
    if actions != [] {
      var n := |actions| - 1;
      var before := After(a, actions[..n]);
      TranscriptIsKept(a, actions[..n]);
      match actions[n]
      case Throw(error, delivered) =>
        SignalIsTracked(a, actions[..n]);
        ThrowSettles(before, error, delivered);
      case _ =>
        KeepsMessages(before, actions[n]);
    }
  }

  lemma KeepsMessages(a: AgentState, action: Action)
    requires Enabled(a, action) && !action.Throw?
    ensures Step(a, action).0.host.messages ==
      (match action
       case Emit(MessageEnd(m)) => a.host.messages + [m]
       case Reset => []
       case _ => a.host.messages)
  {
  }

  /** A call left behind disturbs the host exactly if it ends under an id that is pending: one that a later
      run has announced. */
  lemma LateCallDisturbsIff(a: AgentState, event: Event)
    requires Enabled(a, Late(event))
    ensures Step(a, Late(event)).0 == a <==> (event.ToolExecutionEnd? ==> event.toolCallId !in a.host.pendingToolCalls)
    ensures a.active.None? && Sound(a) ==> Step(a, Late(event)).0 == a
  {
    if event.ToolExecutionEnd? && event.toolCallId !in a.host.pendingToolCalls {
      assert a.host.pendingToolCalls - {event.toolCallId} == a.host.pendingToolCalls;
    }
  }
}
