/** The agent object: its host state, its two queues and the run that is active. Each short method is
    one await-free stretch of the agent's code, proved against the action it stands for; the methods
    that run the loop drain the queues through its polls. */
module AgentObject {
  import opened Options
  import opened Messages
  import opened HostState
  import opened Queues
  import opened Lifecycle
  import opened ToolBatch
  import opened Streaming
  import opened LoopSpec
  import opened AgentLoop
  import opened RecordTheorems
  import opened RunTheorems
  import opened Polling
  import opened Driving
  import opened Delivery

  /** A run of an agent whose transcript and queues were `transcript` and `feed`: what it returned, what
      it left of the queues, and that both account for every message. `kept` says that nobody cleared a
      queue meanwhile. */
  ghost predicate RanFrom(transcript: seq<AgentMessage>, feed: Feed, prompts: seq<AgentMessage>, d: Drive,
                          played: seq<Played>, newMessages: seq<AgentMessage>, after: Feed, kept: bool)
  {
    && d.Takes(played)
    && newMessages == d.Loop(played).newMessages && after == d.Feeds(played)
    && Conserved(prompts, d.Loop(played))
    && multiset(SteeringMessages(d.Loop(played).polls)) + multiset(FollowUpMessages(d.Loop(played).polls))
       == multiset(Injected(d.Loop(played).log)) + multiset(d.Loop(played).pending)
    && Tallies(feed, after, SteeringMessages(d.Loop(played).polls), FollowUpMessages(d.Loop(played).polls), kept)
    && (Accounted(feed, transcript, prompts) ==> Accounted(after, transcript + newMessages, d.Loop(played).pending))
  }

  lemma RunIsAccountedFor(transcript: seq<AgentMessage>, tools: seq<Tool>, prompts: seq<AgentMessage>, feed: Feed,
                          before: seq<Arrival>, mode: Mode, script: seq<Round>, played: seq<Played>)
    requires Launch(transcript, tools, prompts, feed, before, mode, script).Takes(played)
    ensures var d := Launch(transcript, tools, prompts, feed, before, mode, script);
            RanFrom(transcript, feed, prompts, d, played, d.Loop(played).newMessages, d.Feeds(played),
                    Keeps(before) && ScriptKeeps(script, |played|))
  {
    DrainsAreInjected(transcript, tools, prompts, feed, before, mode, script, played);
    if Accounted(feed, transcript, prompts) {
      RunAccounts(transcript, tools, prompts, feed, before, mode, script, played, transcript);
    }
  }

  class Agent {
    const host: Host
    const steeringQueue: PendingMessageQueue
    const followUpQueue: PendingMessageQueue
    const toolExecution: Mode
    /** The polls of the latest run. */
    var config: LoopConfig
    var activeRun: Option<ActiveRun>
    var started: nat
    ghost var settled: seq<nat>

    ghost predicate Valid()
      reads this, host
    {
      && host.Valid() && config.Valid()
      && config.steeringQueue == steeringQueue && config.followUpQueue == followUpQueue
    }

    ghost function Model(): AgentState
      reads this, host, config, steeringQueue, followUpQueue, config.steeringQueue, config.followUpQueue
    {
      AgentState(host.Current(), config.Value(), activeRun, started, settled)
    }

    constructor (transcript: seq<AgentMessage>, steeringMode: QueueMode, followUpMode: QueueMode, toolExecution: Mode)
      ensures Valid() && fresh(host) && fresh(steeringQueue) && fresh(followUpQueue) && fresh(config)
      ensures Model() == NewAgent(transcript, steeringMode, followUpMode)
    {
      host := new Host(transcript);
      var steering := new PendingMessageQueue(steeringMode);
      var followUp := new PendingMessageQueue(followUpMode);
      config := new LoopConfig(steering, followUp, false);
      steeringQueue, followUpQueue := steering, followUp;
      this.toolExecution := toolExecution;
      activeRun, started, settled := None, 0, [];
    }

    method StartRun(skipInitialSteeringPoll: bool)
      requires Valid() && activeRun.None?
      modifies this, host
      ensures Valid() && Model() == Lifecycle.Begin(old(Model()), skipInitialSteeringPoll)
      ensures host.trace == [] && fresh(config)
    {
      activeRun := Some(ActiveRun(started, false, true));
      started := started + 1;
      config := new LoopConfig(steeringQueue, followUpQueue, skipInitialSteeringPoll);
      host.BeginRun();
    }

    method FinishRun()
      requires Valid() && activeRun.Some?
      modifies this, host
      ensures Valid() && Model() == Lifecycle.Finish(old(Model())) && config == old(config)
    {
      host.FinishRun();
      settled := settled + [activeRun.value.id];
      activeRun := None;
    }

    method Prompt(messages: seq<AgentMessage>) returns (answer: Lifecycle.Answer)
      requires Valid()
      modifies this, host
      ensures Valid() && (Model(), answer) == Step(old(Model()), Action.Prompt(messages))
      ensures answer.RunStarted? ==> host.trace == [] && fresh(config)
    {
      if activeRun.Some? {
        return Refused;
      }
      StartRun(false);
      answer := RunStarted(messages);
    }

    method Continue() returns (answer: Lifecycle.Answer)
      requires Valid()
      modifies this, host, steeringQueue, followUpQueue
      ensures Valid() && (Model(), answer) == Step(old(Model()), Action.Continue)
      ensures !answer.Refused? ==> host.trace == [] && fresh(config)
    {
      if activeRun.Some? || |host.messages| == 0 {
        return Refused;
      }
      if !host.messages[|host.messages| - 1].Assistant? {
        StartRun(false);
        return RunContinued;
      }
      var queuedSteering := steeringQueue.DrainMessages();
      if |queuedSteering| > 0 {
        StartRun(true);
        return RunStarted(queuedSteering);
      }
      var queuedFollowUps := followUpQueue.DrainMessages();
      if |queuedFollowUps| > 0 {
        StartRun(false);
        return RunStarted(queuedFollowUps);
      }
      answer := Refused;
    }

    method Steer(message: AgentMessage)
      requires Valid()
      modifies steeringQueue
      ensures Valid() && Model() == Step(old(Model()), Action.Steer(message)).0
    {
      steeringQueue.EnqueueMessage(message);
    }

    method FollowUp(message: AgentMessage)
      requires Valid()
      modifies followUpQueue
      ensures Valid() && Model() == Step(old(Model()), Action.QueueFollowUp(message)).0
    {
      followUpQueue.EnqueueMessage(message);
    }

    method HasQueuedMessages() returns (some: bool)
      requires Valid()
      ensures some <==> config.Value().steering.messages != [] || config.Value().followUp.messages != []
    {
      some := steeringQueue.HasItems();
      if !some {
        some := followUpQueue.HasItems();
      }
    }

    method Abort()
      requires Valid()
      modifies this
      ensures Valid() && Model() == Step(old(Model()), Action.Abort).0
    {
      if activeRun.Some? {
        activeRun := Some(activeRun.value.(aborted := true));
      }
    }

    method Reset()
      requires Valid()
      modifies this, host, steeringQueue, followUpQueue
      ensures Valid() && Model() == Step(old(Model()), Action.Reset).0
    {
      host.Reset();
      followUpQueue.ClearMessages();
      steeringQueue.ClearMessages();
      if activeRun.Some? {
        activeRun := Some(activeRun.value.(undisturbed := false));
      }
    }

    method ProcessEvents(event: Event)
      requires Valid() && activeRun.Some?
      modifies host
      ensures Valid() && Model() == Step(old(Model()), Emit(event)).0
    {
      host.ProcessEvents(event);
    }

    /** The executor threw. The failure handler reports four events; a listener may throw on any of
        them, which ends the handler, and the run is finished in either case. */
    method HandleRunFailure(error: string, delivered: nat)
      requires Valid() && activeRun.Some? && 1 <= delivered <= 4
      modifies this, host
      ensures Valid() && Model() == Step(old(Model()), Throw(error, delivered)).0
    {
      var events := FailureEvents(FailureMessage(activeRun.value.aborted, error));
      for k := 0 to delivered
        invariant Valid() && activeRun == old(activeRun) && started == old(started) && settled == old(settled)
        invariant config == old(config) && config.Value() == old(config.Value())
        invariant host.Current() == Fold(old(host.Current()), events[..k])
      {
        FoldTake(old(host.Current()), events, k);
        host.ProcessEvents(events[k]);
      }
      FinishRun();
    }

    /** Both queues account for every message put into them since their last clear: it is still queued,
        or it has been handed out and is in the transcript or among `waiting`. */
    ghost predicate Ledger(waiting: seq<AgentMessage>)
      reads this, host, config, config.steeringQueue, config.followUpQueue
    {
      && Conserves(config.Value().steering) && Conserves(config.Value().followUp)
      && Accounted(config.Value(), host.messages, waiting)
    }

    /** A whole run from `prompts` in an agent just started, with the loop emitting into the host and
        polling the queues, which users go on filling as `before` and `script` say. If the run ends the
        agent is idle again. */
    method RunPrompts(prompts: seq<AgentMessage>, tools: seq<Tool>, before: seq<Arrival>, script: seq<Round>)
      returns (done: bool, newMessages: seq<AgentMessage>, ghost played: seq<Played>)
      requires Valid() && activeRun.Some? && host.trace == [] && IsClear(host.Current())
      modifies this, host, config, steeringQueue, followUpQueue
      ensures Valid() && config == old(config)
      ensures var d := Launch(old(host.messages), tools, prompts, old(config.Value()), before, toolExecution, script);
              && d.Takes(played)
              && RanFrom(old(host.messages), old(config.Value()), prompts, d, played, newMessages, config.Value(),
                         Keeps(before) && ScriptKeeps(script, |played|))
              && done == d.Loop(played).done && (!done ==> |played| == |script|)
      ensures host.messages == old(host.messages) + newMessages
      ensures old(Ledger(prompts)) && done ==> Ledger([])
      ensures done ==> activeRun.None? && settled == old(settled) + [old(activeRun).value.id]
                       && IsClear(host.Current()) && !host.isStreaming
      ensures !done ==> activeRun == old(activeRun) && IsClear(host.Current())
    {
      var snapshot := new MessageList(host.messages);
      var context := AgentContext(snapshot, tools);
      ghost var items, feed := host.messages, config.Value();
      ghost var s;
      done, newMessages, played, s := RunAgentLoop(prompts, context, toolExecution, before, script, config, host);
      assert host.trace == s.trace;
      ghost var poll := feed.Receive(before).SteeringAnswer();
      TranscriptGrowsByReturned(host.origin, items, tools, prompts, poll, toolExecution, played);
      HostIsClearBetweenTurns(host.origin, items, tools, prompts, poll, toolExecution, played);
      RunIsAccountedFor(items, tools, prompts, feed, before, toolExecution, script, played);
      if done {
        FinishRun();
      }
    }

    /** The same without prompts, from a transcript that `Continue` has let through. */
    method RunContinuation(tools: seq<Tool>, before: seq<Arrival>, script: seq<Round>)
      returns (done: bool, newMessages: seq<AgentMessage>, ghost played: seq<Played>)
      requires Valid() && activeRun.Some? && host.trace == [] && IsClear(host.Current())
      requires host.messages != [] && !host.messages[|host.messages| - 1].Assistant?
      modifies this, host, config, steeringQueue, followUpQueue
      ensures Valid() && config == old(config)
      ensures var d := Launch(old(host.messages), tools, [], old(config.Value()), before, toolExecution, script);
              && d.Takes(played)
              && RanFrom(old(host.messages), old(config.Value()), [], d, played, newMessages, config.Value(),
                         Keeps(before) && ScriptKeeps(script, |played|))
              && done == d.Loop(played).done && (!done ==> |played| == |script|)
      ensures host.messages == old(host.messages) + newMessages
      ensures old(Ledger([])) && done ==> Ledger([])
      ensures done ==> activeRun.None? && settled == old(settled) + [old(activeRun).value.id]
                       && IsClear(host.Current()) && !host.isStreaming
      ensures !done ==> activeRun == old(activeRun) && IsClear(host.Current())
    {
      var snapshot := new MessageList(host.messages);
      var context := AgentContext(snapshot, tools);
      ghost var items, feed := host.messages, config.Value();
      var error;
      ghost var s;
      error, done, newMessages, played, s :=
        RunAgentLoopContinue(context, toolExecution, before, script, config, host);
      assert host.trace == s.trace;
      ghost var poll := feed.Receive(before).SteeringAnswer();
      TranscriptGrowsByReturned(host.origin, items, tools, [], poll, toolExecution, played);
      HostIsClearBetweenTurns(host.origin, items, tools, [], poll, toolExecution, played);
      RunIsAccountedFor(items, tools, [], feed, before, toolExecution, script, played);
      if done {
        FinishRun();
      }
    }

    /** All of `prompt()`. Once the run has ended nothing waits any more: every message taken out of a
        queue since its last clear is in the transcript. */
    method PromptToEnd(messages: seq<AgentMessage>, tools: seq<Tool>, before: seq<Arrival>, script: seq<Round>)
      returns (answer: Lifecycle.Answer, done: bool)
      requires Valid() && (activeRun.None? ==> IsClear(host.Current()))
      modifies this, host, steeringQueue, followUpQueue
      ensures Valid() && old(host.messages) <= host.messages
      ensures answer.Refused? == old(activeRun.Some?) && (answer.Refused? ==> Model() == old(Model()))
      ensures done ==> activeRun.None? && IsClear(host.Current())
      ensures old(Ledger([])) && (done || answer.Refused?) ==> Ledger([])
    {
      answer := Prompt(messages);
      done := false;
      if answer.RunStarted? {
        PromptsAccount(config.Value(), host.messages, messages);
        var newMessages;
        ghost var played;
        done, newMessages, played := RunPrompts(messages, tools, before, script);
      }
    }

    /** `Continue` as the run after it sees it. */
    method ContinueFrom() returns (answer: Lifecycle.Answer)
      requires Valid() && (activeRun.None? ==> IsClear(host.Current()))
      modifies this, host, steeringQueue, followUpQueue
      ensures Valid() && host.messages == old(host.messages) && (answer.Refused? || answer.RunContinued? || answer.RunStarted?)
      ensures answer.Refused? ==> activeRun == old(activeRun)
      ensures !answer.Refused? ==> activeRun.Some? && host.trace == [] && IsClear(host.Current()) && fresh(config)
      ensures answer.RunContinued? ==> host.messages != [] && !host.messages[|host.messages| - 1].Assistant?
      ensures old(Ledger([])) ==> Ledger(if answer.RunStarted? then answer.prompts else [])
    {
      ContinueAccounts(Model());
      answer := Continue();
    }

    /** All of `continue()`. The messages it takes out of a queue itself are accounted for like those that
        its run polls. */
    method ContinueToEnd(tools: seq<Tool>, before: seq<Arrival>, script: seq<Round>)
      returns (answer: Lifecycle.Answer, done: bool)
      requires Valid() && (activeRun.None? ==> IsClear(host.Current()))
      modifies this, host, steeringQueue, followUpQueue
      ensures Valid() && old(host.messages) <= host.messages
      ensures answer.Refused? ==> host.messages == old(host.messages) && activeRun == old(activeRun) && !done
      ensures done ==> activeRun.None? && IsClear(host.Current())
      ensures old(Ledger([])) && (done || answer.Refused?) ==> Ledger([])
    {
      answer := ContinueFrom();
      done := false;
      var newMessages;
      ghost var played;
      match answer {
        case RunStarted(prompts) =>
          done, newMessages, played := RunPrompts(prompts, tools, before, script);
        case RunContinued =>
          done, newMessages, played := RunContinuation(tools, before, script);
        case _ =>
      }
    }
  }
}
