/** The vocabulary shared by the agent loop and the agent that hosts it: messages, tool calls and
    the events a run emits. Timestamps, usage figures, images and error texts that carry no control
    flow are abstracted away; JSON values are represented by their text. */
module Messages {
  import opened Options

  datatype StopReason = Stop | Length | ToolUse | Error | Aborted

  datatype ToolCall = ToolCall(id: string, name: string, arguments: string)

  datatype Block = Text(text: string) | Thinking(thinking: string) | Call(call: ToolCall)

  datatype AssistantMessage =
    AssistantMessage(content: seq<Block>, stopReason: StopReason, errorMessage: Option<string>)

  datatype ToolResultMessage =
    ToolResultMessage(toolCallId: string, toolName: string, content: string, details: string, isError: bool)

  datatype AgentMessage =
    | User(text: string)
    | Assistant(assistant: AssistantMessage)
    | ToolResult(result: ToolResultMessage)
    | Custom(role: string, payload: string)

  /** What a tool, or a hook overriding it, produces. `terminate` is an optional hint. */
  datatype ToolOutput = ToolOutput(content: string, details: string, terminate: Option<bool>)

  datatype Event =
    | AgentStart
    | AgentEnd(messages: seq<AgentMessage>)
    | TurnStart
    | TurnEnd(message: AgentMessage, toolResults: seq<ToolResultMessage>)
    | MessageStart(message: AgentMessage)
    | MessageUpdate(message: AgentMessage)
    | MessageEnd(message: AgentMessage)
    | ToolExecutionStart(toolCallId: string, toolName: string, args: string)
    | ToolExecutionUpdate(toolCallId: string, toolName: string, args: string, partial: string)
    | ToolExecutionEnd(toolCallId: string, toolName: string, output: ToolOutput, isError: bool)

  /** A reply that ends the run at once. */
  predicate Failed(reply: AssistantMessage) {
    reply.stopReason == Error || reply.stopReason == Aborted
  }

  function CallsIn(content: seq<Block>): seq<ToolCall> {
    if content == [] then []
    else (if content[0].Call? then [content[0].call] else []) + CallsIn(content[1..])
  }

  function ToolCalls(reply: AssistantMessage): seq<ToolCall> {
    CallsIn(reply.content)
  }

  function AsMessages(results: seq<ToolResultMessage>): seq<AgentMessage> {
    seq(|results|, i requires 0 <= i < |results| => ToolResult(results[i]))
  }

  /** The start/end pair that announces each of a list of complete messages. */
  function Pairs(messages: seq<AgentMessage>): seq<Event> {
    if messages == [] then []
    else
      var last := messages[|messages| - 1];
      Pairs(messages[..|messages| - 1]) + [MessageStart(last), MessageEnd(last)]
  }

  /** The `message_end` payloads of a trace, in trace order. */
  function MessageEnds(trace: seq<Event>): seq<AgentMessage> {
    if trace == [] then []
    else
      var last := trace[|trace| - 1];
      MessageEnds(trace[..|trace| - 1]) + (if last.MessageEnd? then [last.message] else [])
  }

  lemma Assoc<T>(a: seq<T>, b: seq<T>, c: seq<T>)
    ensures (a + b) + c == a + (b + c)
  {
  }

  lemma Assoc3<T>(a: seq<T>, b: seq<T>, c: seq<T>, d: seq<T>)
    ensures ((a + b) + c) + d == a + ((b + c) + d)
  {
    Assoc(a, b, c);
    Assoc(a, b + c, d);
  }

  lemma {:induction false} MessageEndsConcat(a: seq<Event>, b: seq<Event>)
    ensures MessageEnds(a + b) == MessageEnds(a) + MessageEnds(b)
  {
    if b == [] {
      assert a + b == a;
    } else {
      var init := b[..|b| - 1];
      MessageEndsConcat(a, init);
      assert (a + b)[..|a + b| - 1] == a + init;
    }
  }
}
