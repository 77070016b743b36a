/** The queues of messages waiting for a run, with two drain modes that may change at any time. */
module Queues {
  import opened Messages

  datatype QueueMode = All | OneAtATime

  /** What a drain hands out; the rest stays queued. */
  function Drained(mode: QueueMode, messages: seq<AgentMessage>): seq<AgentMessage> {
    if mode == All || messages == [] then messages else messages[..1]
  }

  function Remaining(mode: QueueMode, messages: seq<AgentMessage>): seq<AgentMessage> {
    if mode == All || messages == [] then [] else messages[1..]
  }

  /** A queue together with its history since it was last cleared. */
  datatype Queue = Queue(
    messages: seq<AgentMessage>, mode: QueueMode,
    enqueued: seq<AgentMessage>, drained: seq<seq<AgentMessage>>)

  datatype Operation = Enqueue(message: AgentMessage) | Drain | SetMode(mode: QueueMode) | Clear

  function Apply(q: Queue, op: Operation): Queue {
    match op
    case Enqueue(m) => q.(messages := q.messages + [m], enqueued := q.enqueued + [m])
    case Drain =>
      q.(messages := Remaining(q.mode, q.messages), drained := q.drained + [Drained(q.mode, q.messages)])
    case SetMode(mode) => q.(mode := mode)
    case Clear => q.(messages := [], enqueued := [], drained := [])
  }

  function ApplyAll(q: Queue, ops: seq<Operation>): Queue {
    if ops == [] then q else Apply(ApplyAll(q, ops[..|ops| - 1]), ops[|ops| - 1])
  }

  function Concat(parts: seq<seq<AgentMessage>>): seq<AgentMessage> {
    if parts == [] then [] else Concat(parts[..|parts| - 1]) + parts[|parts| - 1]
  }

  predicate Conserves(q: Queue) {
    q.enqueued == Concat(q.drained) + q.messages
  }

  lemma ApplyConserves(q: Queue, op: Operation)
    requires Conserves(q)
    ensures Conserves(Apply(q, op))
  {
    match op
    case Enqueue(m) =>
      Assoc(Concat(q.drained), q.messages, [m]);
    case Drain =>
      var first, rest := Drained(q.mode, q.messages), Remaining(q.mode, q.messages);
      assert q.messages == first + rest;
      assert (q.drained + [first])[..|q.drained|] == q.drained;
      Assoc(Concat(q.drained), first, rest);
    case SetMode(_) =>
    case Clear =>
  }

  /** First in, first out, exactly once: whatever is interleaved, what was enqueued since the last
      clear is all drains in order followed by what is still queued. */
  lemma {:induction false} QueueConserves(mode: QueueMode, ops: seq<Operation>)
    ensures Conserves(ApplyAll(Queue([], mode, [], []), ops))
  {
    if ops != [] {
      QueueConserves(mode, ops[..|ops| - 1]);
      ApplyConserves(ApplyAll(Queue([], mode, [], []), ops[..|ops| - 1]), ops[|ops| - 1]);
    }
  }

  /** The `i`-th of a series of one-at-a-time drains of a queue that nobody else touches. */
  function NthDrain(messages: seq<AgentMessage>, i: nat): seq<AgentMessage>
    decreases i
  {
    if i == 0 then Drained(OneAtATime, messages) else NthDrain(Remaining(OneAtATime, messages), i - 1)
  }

  lemma {:induction false} NthDrainIsNth(messages: seq<AgentMessage>, i: nat)
    ensures NthDrain(messages, i) == if i < |messages| then [messages[i]] else []
    decreases i
  {
    if i > 0 {
      NthDrainIsNth(Remaining(OneAtATime, messages), i - 1);
    }
  }

  class PendingMessageQueue {
    var messages: seq<AgentMessage>
    var mode: QueueMode
    ghost var enqueued: seq<AgentMessage>
    ghost var drained: seq<seq<AgentMessage>>

    ghost function Value(): Queue
      reads this
    {
      Queue(messages, mode, enqueued, drained)
    }

    constructor (mode: QueueMode)
      ensures Value() == Queue([], mode, [], [])
    {
      this.messages, this.mode := [], mode;
      enqueued, drained := [], [];
    }

    method EnqueueMessage(message: AgentMessage)
      modifies this
      ensures Value() == Apply(old(Value()), Enqueue(message))
    {
      messages, enqueued := messages + [message], enqueued + [message];
    }

    method HasItems() returns (some: bool)
      ensures some == (Value().messages != [])
    {
      some := |messages| > 0;
    }

    method ChangeMode(mode: QueueMode)
      modifies this
      ensures Value() == Apply(old(Value()), SetMode(mode))
    {
      this.mode := mode;
    }

    method DrainMessages() returns (result: seq<AgentMessage>)
      modifies this
      ensures Value() == Apply(old(Value()), Drain)
      ensures result == Drained(old(mode), old(messages))
      ensures result == [] <==> old(messages) == []
    {
      if mode == All {
        result := messages;
        messages := [];
      } else if |messages| == 0 {
        result := [];
      } else {
        result := [messages[0]];
        assert result == messages[..1];
        messages := messages[1..];
      }
      drained := drained + [result];
    }

    method ClearMessages()
      modifies this
      ensures Value() == Apply(old(Value()), Clear)
    {
      messages, enqueued, drained := [], [], [];
    }

    /** Whatever a user may do to the queue. */
    method Change(op: Operation)
      requires !op.Drain?
      modifies this
      ensures Value() == Apply(old(Value()), op)
    {
      match op {
        case Enqueue(message) => EnqueueMessage(message);
        case SetMode(mode) => ChangeMode(mode);
        case Clear => ClearMessages();
      }
    }
  }
}
