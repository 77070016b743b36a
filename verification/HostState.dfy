/** The runtime state of an agent and the reducer that keeps it in step with the events of a run. */
module HostState {
  import opened Options
  import opened Messages

  datatype State = State(
    messages: seq<AgentMessage>,
    isStreaming: bool,
    streamingMessage: Option<AgentMessage>,
    pendingToolCalls: set<string>,
    errorMessage: Option<string>)

  function Reduce(s: State, event: Event): State {
    match event
    case MessageStart(m) => s.(streamingMessage := Some(m))
    case MessageUpdate(m) => s.(streamingMessage := Some(m))
    case MessageEnd(m) => s.(streamingMessage := None, messages := s.messages + [m])
    case ToolExecutionStart(id, _, _) => s.(pendingToolCalls := s.pendingToolCalls + {id})
    case ToolExecutionEnd(id, _, _, _) => s.(pendingToolCalls := s.pendingToolCalls - {id})
    case TurnEnd(Assistant(reply), _) =>
      if reply.errorMessage.Some? && reply.errorMessage.value != ""
      then s.(errorMessage := reply.errorMessage)
      else s
    case AgentEnd(_) => s.(streamingMessage := None)
    case _ => s
  }

  function Fold(s: State, trace: seq<Event>): State {
    if trace == [] then s
    else Reduce(Fold(s, trace[..|trace| - 1]), trace[|trace| - 1])
  }

  lemma FoldSnoc(s: State, trace: seq<Event>, e: Event)
    ensures Fold(s, trace + [e]) == Reduce(Fold(s, trace), e)
  {
    assert (trace + [e])[..|trace|] == trace;
  }

  lemma {:induction false} FoldConcat(s: State, a: seq<Event>, b: seq<Event>)
    ensures Fold(s, a + b) == Fold(Fold(s, a), b)
  {
    if b == [] {
      assert a + b == a;
    } else {
      var init := b[..|b| - 1];
      FoldConcat(s, a, init);
      assert (a + b)[..|a + b| - 1] == a + init;
    }
  }

  /** Whatever the events are, the transcript grows by exactly their `message_end` payloads. */
  lemma {:induction false} FoldMessages(s: State, trace: seq<Event>)
    ensures Fold(s, trace).messages == s.messages + MessageEnds(trace)
    ensures Fold(s, trace).isStreaming == s.isStreaming
  {
    if trace != [] {
      FoldMessages(s, trace[..|trace| - 1]);
    }
  }

  function EndedIds(trace: seq<Event>): set<string> {
    if trace == [] then {}
    else
      var last := trace[|trace| - 1];
      EndedIds(trace[..|trace| - 1]) + (if last.ToolExecutionEnd? then {last.toolCallId} else {})
  }

  function StartedIds(trace: seq<Event>): set<string> {
    if trace == [] then {}
    else
      var last := trace[|trace| - 1];
      StartedIds(trace[..|trace| - 1]) + (if last.ToolExecutionStart? then {last.toolCallId} else {})
  }

  /** The object behind `Agent.state`. Every event of a run passes through `ProcessEvents`; the
      ghost fields record the events since `origin`. */
  class Host {
    var messages: seq<AgentMessage>
    var isStreaming: bool
    var streamingMessage: Option<AgentMessage>
    var pendingToolCalls: set<string>
    var errorMessage: Option<string>
    ghost var origin: State
    ghost var trace: seq<Event>

    ghost function Current(): State
      reads this
    {
      State(messages, isStreaming, streamingMessage, pendingToolCalls, errorMessage)
    }

    ghost predicate Valid()
      reads this
    {
      Current() == Fold(origin, trace)
    }

    constructor (transcript: seq<AgentMessage>)
      ensures Valid() && trace == []
      ensures Current() == State(transcript, false, None, {}, None)
    {
      messages, isStreaming, streamingMessage := transcript, false, None;
      pendingToolCalls, errorMessage := {}, None;
      origin := State(transcript, false, None, {}, None);
      trace := [];
    }

    method ProcessEvents(event: Event)
      requires Valid()
      modifies this
      ensures Valid() && origin == old(origin) && trace == old(trace) + [event]
      ensures Current() == Reduce(old(Current()), event)
    {
      match event {
        case MessageStart(m) =>
          streamingMessage := Some(m);
        case MessageUpdate(m) =>
          streamingMessage := Some(m);
        case MessageEnd(m) =>
          streamingMessage := None;
          messages := messages + [m];
        case ToolExecutionStart(id, _, _) =>
          pendingToolCalls := pendingToolCalls + {id};
        case ToolExecutionEnd(id, _, _, _) =>
          pendingToolCalls := pendingToolCalls - {id};
        case TurnEnd(message, _) =>
          if message.Assistant? && message.assistant.errorMessage.Some?
             && message.assistant.errorMessage.value != "" {
            errorMessage := message.assistant.errorMessage;
          }
        case AgentEnd(_) =>
          streamingMessage := None;
        case _ =>
      }
      Record(event);
    }

    ghost method Record(event: Event)
      requires Current() == Reduce(Fold(origin, trace), event)
      modifies `trace
      ensures Valid() && trace == old(trace) + [event]
    {
      FoldSnoc(origin, trace, event);
      trace := trace + [event];
    }

    /** The fields a new run starts with; the recorded trace starts over. */
    method BeginRun()
      modifies this
      ensures Valid() && trace == []
      ensures Current() == old(Current()).(isStreaming := true, streamingMessage := None, errorMessage := None)
    {
      isStreaming, streamingMessage, errorMessage := true, None, None;
      Rebase();
    }

    /** Clears what belongs to a run; the transcript and the last error stay. */
    method FinishRun()
      modifies this
      ensures Valid() && trace == []
      ensures Current() == old(Current()).(isStreaming := false, streamingMessage := None, pendingToolCalls := {})
    {
      isStreaming, streamingMessage, pendingToolCalls := false, None, {};
      Rebase();
    }

    method Reset()
      modifies this
      ensures Valid() && trace == []
      ensures Current() == State([], false, None, {}, None)
    {
      messages, isStreaming, streamingMessage, pendingToolCalls, errorMessage := [], false, None, {}, None;
      Rebase();
    }

    ghost method Rebase()
      modifies `origin, `trace
      ensures Valid() && trace == []
    {
      origin, trace := Current(), [];
    }
  }
}
