/** The agent loop itself: the nested loops of a run over mutable message lists, proved to keep every
    record equal to the fold of turns in `LoopSpec`. */
module AgentLoop {
  import opened Options
  import opened Messages
  import opened HostState
  import opened ToolBatch
  import opened ToolExecutor
  import opened Streaming
  import opened LoopSpec
  import opened Polling
  import opened Driving

  datatype AgentContext = AgentContext(messages: MessageList, tools: seq<Tool>)

  /** Emits and records the messages waiting to be injected. */
  method InjectPending(pending: seq<AgentMessage>, context: MessageList, newMessages: MessageList, host: Host)
    requires host.Valid() && context != newMessages
    modifies context, newMessages, host
    ensures host.Valid() && host.origin == old(host.origin)
    ensures context.items == old(context.items) + pending
    ensures newMessages.items == old(newMessages.items) + pending
    ensures host.trace == old(host.trace) + Pairs(pending)
  {
    for i := 0 to |pending|
      invariant host.Valid() && host.origin == old(host.origin)
      invariant context.items == old(context.items) + pending[..i]
      invariant newMessages.items == old(newMessages.items) + pending[..i]
      invariant host.trace == old(host.trace) + Pairs(pending[..i])
    {
      var message := pending[i];
      PairsGrow(old(host.trace), pending, i);
      TakeOneMore(old(context.items), pending, i);
      TakeOneMore(old(newMessages.items), pending, i);
      host.ProcessEvents(MessageStart(message));
      host.ProcessEvents(MessageEnd(message));
      context.Push(message);
      newMessages.Push(message);
    }
    assert pending[..|pending|] == pending;
  }

  lemma TakeOneMore<T>(base: seq<T>, xs: seq<T>, i: nat)
    requires i < |xs|
    ensures base + xs[..i + 1] == base + xs[..i] + [xs[i]]
  {
    assert xs[..i + 1] == xs[..i] + [xs[i]];
  }

  lemma PairsGrow(base: seq<Event>, messages: seq<AgentMessage>, i: nat)
    requires i < |messages|
    ensures base + Pairs(messages[..i + 1])
         == base + Pairs(messages[..i]) + [MessageStart(messages[i])] + [MessageEnd(messages[i])]
  {
    assert messages[..i + 1][..i] == messages[..i];
    Assoc(base, Pairs(messages[..i]), [MessageStart(messages[i]), MessageEnd(messages[i])]);
    Assoc(base + Pairs(messages[..i]), [MessageStart(messages[i])], [MessageEnd(messages[i])]);
  }

  /** Opens a turn, injects what is pending and streams the reply. */
  method OpenTurn(first: bool, pending: seq<AgentMessage>, context: MessageList, newMessages: MessageList,
                  stream: Stream, host: Host)
    returns (reply: AssistantMessage)
    requires host.Valid() && context != newMessages
    modifies context, newMessages, host
    ensures host.Valid() && host.origin == old(host.origin)
    ensures reply == stream.result
    ensures context.items == old(context.items) + (pending + stream.FinalSlots())
    ensures newMessages.items == old(newMessages.items) + (pending + [Assistant(reply)])
    ensures host.trace == old(host.trace) + (Opening(first, pending) + stream.Trace())
  {
    if !first {
      host.ProcessEvents(TurnStart);
    }
    Assoc(old(host.trace), if first then [] else [TurnStart], Pairs(pending));
    InjectPending(pending, context, newMessages, host);
    assert host.trace == old(host.trace) + Opening(first, pending);
    Assoc(old(host.trace), Opening(first, pending), stream.Trace());
    Assoc(old(context.items), pending, stream.FinalSlots());
    reply := StreamAssistantResponse(context, stream, host);
    Assoc(old(newMessages.items), pending, [Assistant(reply)]);
    newMessages.Push(Assistant(reply));
  }

  /** Serves the tool calls of a reply, if any, and appends the results to both lists. */
  method ServeTools(b: Batch, mode: Mode, context: MessageList, newMessages: MessageList, host: Host)
    returns (toolResults: seq<ToolResultMessage>, hasMoreToolCalls: bool, ghost weave: seq<Event>)
    requires host.Valid() && context != newMessages
    modifies context, newMessages, host
    ensures host.Valid() && host.origin == old(host.origin)
    ensures b.calls != [] ==> b.Allows(mode, weave)
    ensures toolResults == if b.calls == [] then [] else Results(b.Taken())
    ensures hasMoreToolCalls == (b.calls != [] && !ShouldTerminate(Finals(b.Taken())))
    ensures context.items == old(context.items) + AsMessages(toolResults)
    ensures newMessages.items == old(newMessages.items) + AsMessages(toolResults)
    ensures host.trace == old(host.trace) + (if b.calls == [] then [] else b.Section(mode, weave))
  {
    toolResults, hasMoreToolCalls, weave := [], false, [];
    if b.calls != [] {
      var terminate;
      toolResults, terminate, weave := ExecuteToolCalls(b, mode, host);
      hasMoreToolCalls := !terminate;
      context.PushAll(AsMessages(toolResults));
      newMessages.PushAll(AsMessages(toolResults));
    }
  }

  /** One turn up to and including `turn_end`. A failed reply is closed without looking at its calls. */
  method PlayTurn(ghost s: LoopState, first: bool, pending: seq<AgentMessage>, context: AgentContext,
                  newMessages: MessageList, mode: Mode, round: Round, ghost turn: Turn, host: Host)
    returns (reply: AssistantMessage, hasMoreToolCalls: bool, ghost weave: seq<Event>)
    requires host.Valid() && context.messages != newMessages
    requires turn == AsTurn(round, turn.steering, turn.followUp)
    requires first == s.first && pending == s.pending && context.tools == s.tools
    modifies context.messages, newMessages, host
    ensures host.Valid() && host.origin == old(host.origin)
    ensures reply == turn.stream.result
    ensures hasMoreToolCalls == MoreToolCalls(TurnBatch(s, turn), turn)
    ensures LegalTurn(s, mode, Played(turn, weave))
    ensures context.messages.items == old(context.messages.items) + ContextMessages(s, turn)
    ensures newMessages.items == old(newMessages.items) + TurnMessages(s, turn)
    ensures host.trace == old(host.trace) + TurnTrace(s, turn, mode, weave)
  {
    reply := OpenTurn(first, pending, context.messages, newMessages, round.stream, host);
    var batch := Batch(ToolCalls(reply), context.tools, round.fate);
    var toolResults;
    if Failed(reply) {
      toolResults, hasMoreToolCalls, weave := [], false, [];
    } else {
      toolResults, hasMoreToolCalls, weave := ServeTools(batch, mode, context.messages, newMessages, host);
    }
    host.ProcessEvents(TurnEnd(Assistant(reply), toolResults));
    assert batch == TurnBatch(s, turn) && toolResults == TurnResults(batch, turn);
    Assoc(old(context.messages.items), pending + turn.stream.FinalSlots(), AsMessages(toolResults));
    Assoc(old(newMessages.items), pending + [Assistant(reply)], AsMessages(toolResults));
    Assoc3(old(host.trace), Opening(first, pending) + turn.stream.Trace(), ToolTrace(batch, turn, mode, weave),
           [TurnEnd(Assistant(reply), toolResults)]);
  }

  /** The loop's own records agree with a value of the specification. */
  ghost predicate Agrees(s: LoopState, base: seq<Event>, context: AgentContext, newMessages: MessageList,
                         caller: MessageList, host: Host)
    reads context.messages, newMessages, caller, host
  {
    && context.messages.items == s.context && context.tools == s.tools
    && newMessages.items == s.newMessages
    && host.trace == base + s.trace
    && caller.items == s.caller && (caller == context.messages <==> !s.replaced)
  }

  /** `prepareNextTurn`: a new context shares the list of the running one or brings its own. */
  method PrepareNextTurn(context: AgentContext, snapshot: Option<Snapshot>) returns (next: AgentContext)
    ensures snapshot.None? ==> next == context
    ensures snapshot.Some? ==> next.tools == snapshot.value.tools
    ensures snapshot.Some? && snapshot.value.messages.None? ==> next.messages == context.messages
    ensures snapshot.Some? && snapshot.value.messages.Some? ==>
              fresh(next.messages) && next.messages.items == snapshot.value.messages.value
  {
    next := context;
    if snapshot.Some? {
      var messages := context.messages;
      if snapshot.value.messages.Some? {
        messages := new MessageList(snapshot.value.messages.value);
      }
      next := AgentContext(messages, snapshot.value.tools);
    }
  }

  /** `PlayTurn` with all records of the run in view. */
  method CloseTurn(ghost s: LoopState, ghost base: seq<Event>, first: bool, pending: seq<AgentMessage>,
                   context: AgentContext, newMessages: MessageList, ghost caller: MessageList, mode: Mode, round: Round,
                   ghost turn: Turn, host: Host)
    returns (reply: AssistantMessage, hasMoreToolCalls: bool, ghost weave: seq<Event>)
    requires host.Valid() && context.messages != newMessages && caller != newMessages
    requires turn == AsTurn(round, turn.steering, turn.followUp)
    requires Agrees(s, base, context, newMessages, caller, host) && first == s.first && pending == s.pending
    modifies context.messages, newMessages, host
    ensures host.Valid() && host.origin == old(host.origin)
    ensures LegalTurn(s, mode, Played(turn, weave))
    ensures reply == turn.stream.result && hasMoreToolCalls == MoreToolCalls(TurnBatch(s, turn), turn)
    ensures Agrees(Tend(Close(s, turn, mode, weave)), base, context, newMessages, caller, host)
  {
    reply, hasMoreToolCalls, weave := PlayTurn(s, first, pending, context, newMessages, mode, round, turn, host);
    Assoc(base, s.trace, TurnTrace(s, turn, mode, weave));
  }

  /** `prepareNextTurn` with all records of the run in view. */
  method RefreshContext(ghost s: LoopState, ghost base: seq<Event>, context: AgentContext, newMessages: MessageList,
                        ghost caller: MessageList, round: Round, ghost turn: Turn, host: Host)
    returns (next: AgentContext)
    requires turn.snapshot == round.snapshot && Agrees(s, base, context, newMessages, caller, host)
    ensures next.messages == context.messages || fresh(next.messages)
    ensures Agrees(Refresh(s, turn), base, next, newMessages, caller, host)
  {
    next := PrepareNextTurn(context, round.snapshot);
  }

  /** One iteration of the inner loop up to and including `prepareNextTurn`. */
  method RunTurn(ghost s: LoopState, ghost base: seq<Event>, first: bool, pending: seq<AgentMessage>,
                 context: AgentContext, newMessages: MessageList, ghost caller: MessageList, mode: Mode, round: Round,
                 ghost turn: Turn, host: Host)
    returns (next: AgentContext, reply: AssistantMessage, hasMoreToolCalls: bool, ghost weave: seq<Event>)
    requires host.Valid() && context.messages != newMessages && caller != newMessages
    requires turn == AsTurn(round, turn.steering, turn.followUp)
    requires Agrees(s, base, context, newMessages, caller, host) && first == s.first && pending == s.pending
    modifies context.messages, newMessages, host
    ensures host.Valid() && host.origin == old(host.origin)
    ensures LegalTurn(s, mode, Played(turn, weave))
    ensures next.messages == context.messages || fresh(next.messages)
    ensures reply == turn.stream.result && hasMoreToolCalls == MoreToolCalls(TurnBatch(s, turn), turn)
    ensures Agrees(AfterTurn(s, turn, mode, weave), base, next, newMessages, caller, host)
  {
    reply, hasMoreToolCalls, weave :=
      CloseTurn(s, base, first, pending, context, newMessages, caller, mode, round, turn, host);
    ghost var closed := Tend(Close(s, turn, mode, weave));
    next := context;
    if Failed(reply) {
      assert AfterTurn(s, turn, mode, weave) == closed;
    } else {
      next := RefreshContext(closed, base, context, newMessages, caller, round, turn, host);
      assert AfterTurn(s, turn, mode, weave) == Refresh(closed, turn);
    }
  }

  /** Emits the final `agent_end`. */
  method EndRun(ghost s: LoopState, ghost base: seq<Event>, context: AgentContext, newMessages: MessageList,
                ghost caller: MessageList, host: Host)
    requires host.Valid() && Agrees(s, base, context, newMessages, caller, host)
    modifies host
    ensures host.Valid() && host.origin == old(host.origin)
    ensures Agrees(Finish(s), base, context, newMessages, caller, host)
  {
    host.ProcessEvents(AgentEnd(newMessages.items));
    Assoc(base, s.trace, [AgentEnd(newMessages.items)]);
  }

  /** `played` is a run `d` can take, `s` its outcome and `f` what it leaves of the queues. */
  ghost predicate Reached(d: Drive, played: seq<Played>, s: LoopState, f: Feed) {
    d.Takes(played) && s == d.Loop(played) && f == d.Feeds(played)
  }

  lemma ReachNext(d: Drive, played: seq<Played>, s: LoopState, f: Feed, turn: Turn, weave: seq<Event>)
    requires Reached(d, played, s, f) && |played| < |d.script| && !s.done
    requires turn == Asked(f, d.script[|played|], More(s, d.script[|played|]))
    requires LegalTurn(s, d.mode, Played(turn, weave))
    ensures Reached(d, played + [Played(turn, weave)], TakeTurn(s, turn, d.mode, weave),
                    Fed(f, d.script[|played|], More(s, d.script[|played|])))
  {
    d.TakesNext(played, weave);
  }

  /** How a turn that did not end the run continues, once its queues are polled. */
  lemma DecideCases(s: LoopState, turn: Turn, mode: Mode, weave: seq<Event>)
    ensures var after, next := AfterTurn(s, turn, mode, weave), TakeTurn(s, turn, mode, weave);
            var more := MoreToolCalls(TurnBatch(s, turn), turn);
            && (Failed(turn.stream.result) || turn.stop ==> next == Finish(after))
            && (!Failed(turn.stream.result) && !turn.stop ==> next == Decide(after, turn, more))
            && next.first == false && (s.done ==> next.done)
  {
  }

  lemma DecideAgrees(after: LoopState, turn: Turn, more: bool, base: seq<Event>, context: AgentContext,
                     newMessages: MessageList, caller: MessageList, host: Host)
    requires Agrees(after, base, context, newMessages, caller, host) && !turn.stop && !after.done
    ensures var next := Decide(after, turn, more);
            && (more || turn.steering != [] ==>
                  Agrees(next, base, context, newMessages, caller, host) && next.pending == turn.steering && !next.done)
            && (!more && turn.steering == [] ==>
                  AwaitsFollowUp(next, turn.followUp, base, context, newMessages, caller, host))
  {
    Assoc(base, after.trace, [AgentEnd(after.newMessages)]);
  }

  /** The loop stands where it would stop: `s` is what polling `followUp` will make of its records. */
  ghost predicate AwaitsFollowUp(s: LoopState, followUp: seq<AgentMessage>, base: seq<Event>, context: AgentContext,
                                 newMessages: MessageList, caller: MessageList, host: Host)
    reads context.messages, newMessages, caller, host
  {
    && context.messages.items == s.context && context.tools == s.tools
    && newMessages.items == s.newMessages
    && caller.items == s.caller && (caller == context.messages <==> !s.replaced)
    && s.done == (followUp == [])
    && (followUp != [] ==> s.pending == followUp)
    && (if followUp == [] then host.trace + [AgentEnd(s.newMessages)] else host.trace) == base + s.trace
  }

  /** The queues stand where a run that has nothing more to do polls its follow-ups, once `arrivals`
      are in: `followUp` is what it will get and `f` what it will leave. */
  predicate Offers(now: Feed, arrivals: seq<Arrival>, followUp: seq<AgentMessage>, f: Feed) {
    followUp == now.Receive(arrivals).FollowUpAnswer() && f == now.Receive(arrivals).PollFollowUp()
  }

  /** What the queues answer and keep once users have done what comes before the next poll. */
  lemma AskedCases(f: Feed, round: Round, more: bool)
    ensures var turn, now := Asked(f, round, more), f.Receive(round.beforeSteering);
            && turn == AsTurn(round, turn.steering, turn.followUp)
            && (Stops(round) ==> Fed(f, round, more) == now)
            && (!Stops(round) ==> turn.steering == now.SteeringAnswer())
            && (!Stops(round) && (more || turn.steering != []) ==> Fed(f, round, more) == now.PollSteering())
            && (!Stops(round) && !more && turn.steering == [] ==>
                  Offers(now.PollSteering(), round.beforeFollowUp, turn.followUp, Fed(f, round, more)))
  {
  }

  /** What follows a turn: the run ends, or the steering queue is polled. */
  method Conclude(ghost after: LoopState, ghost turn: Turn, ghost f: Feed, ghost base: seq<Event>, more: bool,
                  context: AgentContext, newMessages: MessageList, ghost caller: MessageList, round: Round,
                  config: LoopConfig, host: Host)
    returns (ended: bool, steering: seq<AgentMessage>)
    requires host.Valid() && config.Valid() && f == config.Value() && turn == Asked(f, round, more)
    requires Agrees(after, base, context, newMessages, caller, host) && !after.done
    modifies host, config, config.steeringQueue, config.followUpQueue
    ensures host.Valid() && host.origin == old(host.origin)
    ensures ended == Stops(round)
    ensures ended ==> Agrees(Finish(after), base, context, newMessages, caller, host)
                      && config.Value() == Fed(f, round, more)
    ensures !ended && (more || steering != []) ==>
              var next := Decide(after, turn, more);
              && !next.done && next.pending == steering && Agrees(next, base, context, newMessages, caller, host)
              && config.Value() == Fed(f, round, more)
    ensures !ended && !more && steering == [] ==>
              AwaitsFollowUp(Decide(after, turn, more), turn.followUp, base, context, newMessages, caller, host)
              && Offers(config.Value(), round.beforeFollowUp, turn.followUp, Fed(f, round, more))
  {
    AskedCases(f, round, more);
    ended, steering := round.stop || Failed(round.stream.result), [];
    config.Receive(round.beforeSteering);
    if ended {
      EndRun(after, base, context, newMessages, caller, host);
    } else {
      steering := config.GetSteeringMessages();
      DecideAgrees(after, turn, more, base, context, newMessages, caller, host);
    }
  }

  /** The body of the inner loop. `played` and `s` become `played'` and `s'`. If nothing more is to be
      done, `followUp` is what the follow-up queue is going to answer. */
  method Iterate(ghost d: Drive, ghost base: seq<Event>, ghost s: LoopState, ghost played: seq<Played>,
                 context: AgentContext, newMessages: MessageList, ghost caller: MessageList, mode: Mode,
                 round: Round, firstTurn: bool, pending: seq<AgentMessage>, config: LoopConfig, host: Host)
    returns (next: AgentContext, ended: bool, hasMoreToolCalls: bool, steering: seq<AgentMessage>,
             ghost followUp: seq<AgentMessage>, ghost played': seq<Played>, ghost s': LoopState, ghost f': Feed)
    requires host.Valid() && config.Valid() && context.messages != newMessages && caller != newMessages
    requires Agrees(s, base, context, newMessages, caller, host) && firstTurn == s.first && pending == s.pending
    requires Reached(d, played, s, config.Value()) && !s.done && mode == d.mode
    requires |played| < |d.script| && round == d.script[|played|]
    modifies context.messages, newMessages, host, config, config.steeringQueue, config.followUpQueue
    ensures host.Valid() && host.origin == old(host.origin)
    ensures next.messages == context.messages || fresh(next.messages)
    ensures |played'| == |played| + 1 && Reached(d, played', s', f') && !s'.first
    ensures ended ==> s'.done && Agrees(s', base, next, newMessages, caller, host) && config.Value() == f'
    ensures !ended && (hasMoreToolCalls || steering != []) ==>
              !s'.done && s'.pending == steering && Agrees(s', base, next, newMessages, caller, host)
              && config.Value() == f'
    ensures !ended && !hasMoreToolCalls && steering == [] ==>
              AwaitsFollowUp(s', followUp, base, next, newMessages, caller, host)
              && Offers(config.Value(), round.beforeFollowUp, followUp, f')
  {
    ghost var f := config.Value();
    ghost var turn := Asked(f, round, More(s, round));
    AskedCases(f, round, More(s, round));
    var reply;
    ghost var weave;
    next, reply, hasMoreToolCalls, weave :=
      RunTurn(s, base, firstTurn, pending, context, newMessages, caller, mode, round, turn, host);
    assert hasMoreToolCalls == More(s, round);
    ghost var after := AfterTurn(s, turn, mode, weave);
    AfterIsOpen(s, turn, mode, weave);
    ended, steering := Conclude(after, turn, f, base, hasMoreToolCalls, next, newMessages, caller, round, config, host);
    s', f', played' := TakeTurn(s, turn, mode, weave), Fed(f, round, hasMoreToolCalls), played + [Played(turn, weave)];
    followUp := turn.followUp;
    DecideCases(s, turn, mode, weave);
    ReachNext(d, played, s, f, turn, weave);
  }

  lemma AfterIsOpen(s: LoopState, turn: Turn, mode: Mode, weave: seq<Event>)
    ensures AfterTurn(s, turn, mode, weave).done == s.done
  {
  }

  /** How the inner loop is left: the run has ended, the provider has not answered yet, or nothing
      more is to be done unless a follow-up is queued. */
  datatype Exit = Ended | Waiting | Idle

  /** The inner loop: turns follow each other while tools or steering messages ask for more. When it is
      left idle, `arrivals` is what users do before the follow-up queue is polled. */
  method RunInnerLoop(ghost d: Drive, ghost base: seq<Event>, ghost s: LoopState, ghost played: seq<Played>,
                      context: AgentContext, newMessages: MessageList, ghost caller: MessageList, mode: Mode,
                      script: seq<Round>, k: nat, firstTurn: bool, pending: seq<AgentMessage>, config: LoopConfig,
                      host: Host)
    returns (next: AgentContext, exit: Exit, k': nat, arrivals: seq<Arrival>,
             ghost followUp: seq<AgentMessage>, ghost played': seq<Played>, ghost s': LoopState, ghost f': Feed)
    requires host.Valid() && config.Valid() && context.messages != newMessages && caller != newMessages
    requires Agrees(s, base, context, newMessages, caller, host) && firstTurn == s.first && pending == s.pending
    requires Reached(d, played, s, config.Value()) && |played| == k && !s.done
    requires mode == d.mode && script == d.script
    modifies context.messages, newMessages, host, config, config.steeringQueue, config.followUpQueue
    ensures host.Valid() && host.origin == old(host.origin)
    ensures next.messages == context.messages || fresh(next.messages)
    ensures |played'| == k' <= |script| && Reached(d, played', s', f')
    ensures exit.Waiting? ==> k' == |script|
    ensures !exit.Idle? ==>
              s'.done == exit.Ended? && Agrees(s', base, next, newMessages, caller, host)
              && config.Value() == f'
    ensures exit.Idle? ==>
              k < k' && !s'.first && AwaitsFollowUp(s', followUp, base, next, newMessages, caller, host)
              && Offers(config.Value(), arrivals, followUp, f')
  {
    var hasMoreToolCalls, first, pendingMessages := true, firstTurn, pending;
    next, k', arrivals, followUp, played', s', f' := context, k, [], [], played, s, config.Value();
    while hasMoreToolCalls || |pendingMessages| > 0
      invariant host.Valid() && host.origin == old(host.origin)
      invariant next.messages == context.messages || fresh(next.messages)
      invariant k' == |played'| <= |script| && Reached(d, played', s', f') && s'.first == first
      invariant k <= k' && (k == k' ==> hasMoreToolCalls) && (k < k' ==> !first)
      invariant hasMoreToolCalls || pendingMessages != [] ==>
                  !s'.done && s'.pending == pendingMessages && Agrees(s', base, next, newMessages, caller, host)
                  && config.Value() == f'
      invariant !hasMoreToolCalls && pendingMessages == [] ==>
                  AwaitsFollowUp(s', followUp, base, next, newMessages, caller, host)
                  && Offers(config.Value(), arrivals, followUp, f')
      decreases |script| - k'
    {
      if k' == |script| {
        exit := Waiting;
        return;
      }
      var ended;
      next, ended, hasMoreToolCalls, pendingMessages, followUp, played', s', f' :=
        Iterate(d, base, s', played', next, newMessages, caller, mode, script[k'], first, pendingMessages, config, host);
      arrivals := script[k'].beforeFollowUp;
      k' := k' + 1;
      first := false;
      if ended {
        exit := Ended;
        return;
      }
    }
    exit := Idle;
  }

  /** The agent would stop here: either a follow-up starts another turn or the run ends. */
  method PollFollowUps(ghost s: LoopState, ghost base: seq<Event>, arrivals: seq<Arrival>,
                       ghost followUp: seq<AgentMessage>, ghost f: Feed, context: AgentContext,
                       newMessages: MessageList, ghost caller: MessageList, config: LoopConfig, host: Host)
    returns (followUps: seq<AgentMessage>)
    requires host.Valid() && config.Valid() && Offers(config.Value(), arrivals, followUp, f)
    requires AwaitsFollowUp(s, followUp, base, context, newMessages, caller, host)
    modifies host, config, config.steeringQueue, config.followUpQueue
    ensures host.Valid() && host.origin == old(host.origin)
    ensures followUps == followUp && config.Value() == f
    ensures Agrees(s, base, context, newMessages, caller, host)
  {
    config.Receive(arrivals);
    followUps := config.GetFollowUpMessages();
    if |followUps| == 0 {
      host.ProcessEvents(AgentEnd(newMessages.items));
    }
  }

  /** The inner loop and the poll of the follow-up queue after it. Left idle, the follow-ups found are
      to be injected. */
  method RunPhase(ghost d: Drive, ghost base: seq<Event>, ghost s: LoopState, ghost played: seq<Played>,
                  context: AgentContext, newMessages: MessageList, ghost caller: MessageList, mode: Mode,
                  script: seq<Round>, k: nat, firstTurn: bool, pending: seq<AgentMessage>, config: LoopConfig,
                  host: Host)
    returns (next: AgentContext, exit: Exit, k': nat, followUps: seq<AgentMessage>,
             ghost played': seq<Played>, ghost s': LoopState)
    requires host.Valid() && config.Valid() && context.messages != newMessages && caller != newMessages
    requires Agrees(s, base, context, newMessages, caller, host) && firstTurn == s.first && pending == s.pending
    requires Reached(d, played, s, config.Value()) && |played| == k && !s.done
    requires mode == d.mode && script == d.script
    modifies context.messages, newMessages, host, config, config.steeringQueue, config.followUpQueue
    ensures host.Valid() && host.origin == old(host.origin)
    ensures next.messages == context.messages || fresh(next.messages)
    ensures |played'| == k' <= |script| && Reached(d, played', s', config.Value())
    ensures Agrees(s', base, next, newMessages, caller, host) && s'.done == exit.Ended?
    ensures exit.Waiting? ==> k' == |script|
    ensures exit.Idle? ==> k < k' && !s'.first && s'.pending == followUps
  {
    var arrivals;
    ghost var followUp, f;
    next, exit, k', arrivals, followUp, played', s', f :=
      RunInnerLoop(d, base, s, played, context, newMessages, caller, mode, script, k, firstTurn, pending, config, host);
    followUps := [];
    if exit.Idle? {
      followUps := PollFollowUps(s', base, arrivals, followUp, f, next, newMessages, caller, config, host);
      if |followUps| == 0 {
        exit := Ended;
      }
    }
  }

  /** Polls once at the start and then runs turns until the agent stops or the provider has no further
      answer in `script`. `before` is what users do before the first poll. */
  method RunLoop(ghost d: Drive, ghost base: seq<Event>, initialContext: AgentContext, newMessages: MessageList,
                 mode: Mode, before: seq<Arrival>, script: seq<Round>, config: LoopConfig, host: Host)
    returns (done: bool, ghost played: seq<Played>, ghost s: LoopState, ghost context: AgentContext)
    requires host.Valid() && config.Valid() && initialContext.messages != newMessages
    requires Agrees(d.start, base, initialContext, newMessages, initialContext.messages, host)
    requires d.start.first && !d.start.done && mode == d.mode && script == d.script
    requires var asked := config.Value().Receive(before);
             d.start.pending == asked.SteeringAnswer() && d.feed == asked.PollSteering()
    modifies initialContext.messages, newMessages, host, config, config.steeringQueue, config.followUpQueue
    ensures host.Valid() && host.origin == old(host.origin)
    ensures Reached(d, played, s, config.Value())
    ensures done == s.done && (!done ==> |played| == |script|)
    ensures Agrees(s, base, context, newMessages, initialContext.messages, host)
  {
    config.Receive(before);
    var pendingMessages := config.GetSteeringMessages();
    var k, exit := 0, Idle;
    var current := initialContext;
    s, played := d.start, [];
    while exit.Idle?
      invariant host.Valid() && host.origin == old(host.origin)
      invariant k == |played| <= |script| && Reached(d, played, s, config.Value())
      invariant Agrees(s, base, current, newMessages, initialContext.messages, host)
      invariant s.done == exit.Ended? && (exit.Waiting? ==> k == |script|)
      invariant exit.Idle? ==> s.pending == pendingMessages && s.first == (k == 0)
      invariant current.messages == initialContext.messages || fresh(current.messages)
      decreases exit.Idle?, |script| - k
    {
      current, exit, k, pendingMessages, played, s :=
        RunPhase(d, base, s, played, current, newMessages, initialContext.messages, mode, script, k, k == 0,
                 pendingMessages, config, host);
    }
    done, context := exit.Ended?, current;
  }

  method EmitPrompts(prompts: seq<AgentMessage>, host: Host)
    requires host.Valid()
    modifies host
    ensures host.Valid() && host.origin == old(host.origin)
    ensures host.trace == old(host.trace) + ([AgentStart, TurnStart] + Pairs(prompts))
  {
    host.ProcessEvents(AgentStart);
    host.ProcessEvents(TurnStart);
    ghost var base := host.trace;
    for i := 0 to |prompts|
      invariant host.Valid() && host.origin == old(host.origin)
      invariant host.trace == base + Pairs(prompts[..i])
    {
      PairsGrow(base, prompts, i);
      host.ProcessEvents(MessageStart(prompts[i]));
      host.ProcessEvents(MessageEnd(prompts[i]));
    }
    assert prompts[..|prompts|] == prompts;
    assert base == old(host.trace) + [AgentStart, TurnStart];
    Assoc(old(host.trace), [AgentStart, TurnStart], Pairs(prompts));
  }

  /** A run from new prompts. It works on a copy of the context: the caller's list is not in its frame. */
  method RunAgentLoop(prompts: seq<AgentMessage>, context: AgentContext, mode: Mode, before: seq<Arrival>,
                      script: seq<Round>, config: LoopConfig, host: Host)
    returns (done: bool, newMessages: seq<AgentMessage>, ghost played: seq<Played>, ghost s: LoopState)
    requires host.Valid() && config.Valid()
    modifies host, config, config.steeringQueue, config.followUpQueue
    ensures host.Valid() && host.origin == old(host.origin)
    ensures Reached(Launch(context.messages.items, context.tools, prompts, old(config.Value()), before, mode, script),
                    played, s, config.Value())
    ensures done == s.done && (!done ==> |played| == |script|)
    ensures newMessages == s.newMessages && host.trace == old(host.trace) + s.trace
  {
    var messages := new MessageList(context.messages.items + prompts);
    var produced := new MessageList(prompts);
    ghost var d := Launch(context.messages.items, context.tools, prompts, config.Value(), before, mode, script);
    EmitPrompts(prompts, host);
    ghost var last;
    done, played, s, last :=
      RunLoop(d, old(host.trace), AgentContext(messages, context.tools), produced, mode, before, script, config, host);
    newMessages := produced.items;
  }

  datatype ContinueError = NoMessages | LastIsAssistant

  /** A run that continues from the context as it is. It shares the caller's list, which therefore
      grows in place. */
  method RunAgentLoopContinue(context: AgentContext, mode: Mode, before: seq<Arrival>, script: seq<Round>,
                              config: LoopConfig, host: Host)
    returns (error: Option<ContinueError>, done: bool, newMessages: seq<AgentMessage>,
             ghost played: seq<Played>, ghost s: LoopState)
    requires host.Valid() && config.Valid()
    modifies context.messages, host, config, config.steeringQueue, config.followUpQueue
    ensures host.Valid() && host.origin == old(host.origin)
    ensures var items := old(context.messages.items);
            error == if items == [] then Some(NoMessages)
                     else if items[|items| - 1].Assistant? then Some(LastIsAssistant)
                     else None
    ensures error.Some? ==>
              && context.messages.items == old(context.messages.items) && host.trace == old(host.trace)
              && config.Value() == old(config.Value())
    ensures error.None? ==>
              && Reached(Launch(old(context.messages.items), context.tools, [], old(config.Value()), before, mode, script),
                         played, s, config.Value())
              && done == s.done && (!done ==> |played| == |script|)
              && newMessages == s.newMessages && host.trace == old(host.trace) + s.trace
              && context.messages.items == s.caller
  {
    var items := context.messages.items;
    ghost var d := Launch(items, context.tools, [], config.Value(), before, mode, script);
    error, done, newMessages, played, s := None, false, [], [], d.start;
    if |items| == 0 {
      error := Some(NoMessages);
      return;
    }
    if items[|items| - 1].Assistant? {
      error := Some(LastIsAssistant);
      return;
    }
    var produced := new MessageList([]);
    EmitPrompts([], host);
    assert items + [] == items;
    ghost var last;
    done, played, s, last := RunLoop(d, old(host.trace), context, produced, mode, before, script, config, host);
    newMessages := produced.items;
  }
}
