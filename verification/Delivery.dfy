/** What becomes of the messages users queue: from the queue through a poll and an injection into the
    transcript. Joins the conservation law of the queues with that of the runs they feed. */
module Delivery {
  import opened Messages
  import opened HostState
  import opened ToolBatch
  import opened LoopSpec
  import opened LoopTheorems
  import opened RecordTheorems
  import opened RunTheorems
  import opened Queues
  import opened Polling
  import opened Driving
  import Lifecycle

  // ---------------------------------------------------------------- polls are drains

  function SteeringMessages(polls: seq<Poll>): seq<AgentMessage> {
    if polls == [] then []
    else
      var last := polls[|polls| - 1];
      SteeringMessages(polls[..|polls| - 1]) + (if last.Steering? then last.messages else [])
  }

  function FollowUpMessages(polls: seq<Poll>): seq<AgentMessage> {
    if polls == [] then []
    else
      var last := polls[|polls| - 1];
      FollowUpMessages(polls[..|polls| - 1]) + (if last.FollowUp? then last.messages else [])
  }

  ghost predicate IsSuffix<T>(a: seq<T>, b: seq<T>) {
    |a| <= |b| && b[|b| - |a|..] == a
  }

  /** Between `q0` and `q1` exactly `answers` was handed out, on top of what had been; a clear forgets
      what was handed out before it. */
  ghost predicate Handed(q0: Queue, q1: Queue, answers: seq<AgentMessage>, kept: bool) {
    && IsSuffix(Concat(q1.drained), Concat(q0.drained) + answers)
    && (kept ==> Concat(q1.drained) == Concat(q0.drained) + answers)
    && (Conserves(q0) ==> Conserves(q1))
  }

  /** Nobody clears a queue. */
  predicate Keeps(arrivals: seq<Arrival>) {
    forall a :: a in arrivals ==> !a.change.Clear?
  }

  predicate RoundKeeps(r: Round) {
    Keeps(r.beforeSteering) && Keeps(r.beforeFollowUp)
  }

  lemma ChangeKeepsHanded(q0: Queue, q1: Queue, answers: seq<AgentMessage>, kept: bool, op: Operation)
    requires Handed(q0, q1, answers, kept) && !op.Drain?
    ensures Handed(q0, Apply(q1, op), answers, kept && !op.Clear?)
  {
    if Conserves(q1) {
      ApplyConserves(q1, op);
    }
  }

  lemma DrainIsHanded(q0: Queue, q1: Queue, answers: seq<AgentMessage>, kept: bool)
    requires Handed(q0, q1, answers, kept)
    ensures Handed(q0, Apply(q1, Drain), answers + Drained(q1.mode, q1.messages), kept)
  {
    var first, before := Drained(q1.mode, q1.messages), Concat(q1.drained);
    assert (q1.drained + [first])[..|q1.drained|] == q1.drained;
    Assoc(Concat(q0.drained), answers, first);
    SuffixGrows(before, Concat(q0.drained) + answers, first);
    if Conserves(q1) {
      ApplyConserves(q1, Drain);
    }
  }

  lemma SuffixGrows<T>(a: seq<T>, b: seq<T>, c: seq<T>)
    requires IsSuffix(a, b)
    ensures IsSuffix(a + c, b + c)
  {
    assert (b + c)[|b| - |a|..] == b[|b| - |a|..] + c;
  }

  lemma NothingHanded(q: Queue)
    ensures Handed(q, q, [], true)
  {
    assert Concat(q.drained) + [] == Concat(q.drained);
  }

  /** Both queues of a run: what its steering polls and its follow-up polls have been handed. */
  ghost predicate Tallies(f0: Feed, f1: Feed, steering: seq<AgentMessage>, followUp: seq<AgentMessage>, kept: bool) {
    Handed(f0.steering, f1.steering, steering, kept) && Handed(f0.followUp, f1.followUp, followUp, kept)
  }

  lemma {:induction false} ReceiveTallies(f0: Feed, f1: Feed, steering: seq<AgentMessage>, followUp: seq<AgentMessage>,
                                          kept: bool, arrivals: seq<Arrival>)
    requires Tallies(f0, f1, steering, followUp, kept)
    ensures Tallies(f0, f1.Receive(arrivals), steering, followUp, kept && Keeps(arrivals))
  {
    if arrivals != [] {
      var n := |arrivals| - 1;
      ReceiveTallies(f0, f1, steering, followUp, kept, arrivals[..n]);
      var before, kept' := f1.Receive(arrivals[..n]), kept && Keeps(arrivals[..n]);
      assert arrivals[n] in arrivals && forall a :: a in arrivals[..n] ==> a in arrivals;
      match arrivals[n]
      case ToSteering(change) => ChangeKeepsHanded(f0.steering, before.steering, steering, kept', change);
      case ToFollowUp(change) => ChangeKeepsHanded(f0.followUp, before.followUp, followUp, kept', change);
    }
  }

  lemma PollSteeringTallies(f0: Feed, f1: Feed, steering: seq<AgentMessage>, followUp: seq<AgentMessage>, kept: bool)
    requires Tallies(f0, f1, steering, followUp, kept)
    ensures Tallies(f0, f1.PollSteering(), steering + f1.SteeringAnswer(), followUp, kept)
  {
    if f1.skipInitialSteeringPoll {
      assert steering + [] == steering;
    } else {
      DrainIsHanded(f0.steering, f1.steering, steering, kept);
    }
  }

  lemma PollFollowUpTallies(f0: Feed, f1: Feed, steering: seq<AgentMessage>, followUp: seq<AgentMessage>, kept: bool)
    requires Tallies(f0, f1, steering, followUp, kept)
    ensures Tallies(f0, f1.PollFollowUp(), steering, followUp + f1.FollowUpAnswer(), kept)
  {
    DrainIsHanded(f0.followUp, f1.followUp, followUp, kept);
  }

  /** The polls of one turn. */
  lemma FedTallies(f0: Feed, f: Feed, r: Round, more: bool, steering: seq<AgentMessage>, followUp: seq<AgentMessage>,
                   kept: bool)
    requires Tallies(f0, f, steering, followUp, kept)
    ensures var turn := Asked(f, r, more);
            Tallies(f0, Fed(f, r, more), steering + turn.steering, followUp + turn.followUp, kept && RoundKeeps(r))
  {
    var f1 := f.Receive(r.beforeSteering);
    assert steering + [] == steering && followUp + [] == followUp;
    ReceiveTallies(f0, f, steering, followUp, kept, r.beforeSteering);
    if !Stops(r) {
      PollSteeringTallies(f0, f1, steering, followUp, kept && Keeps(r.beforeSteering));
      if !more && f1.SteeringAnswer() == [] {
        var f2 := f1.PollSteering();
        ReceiveTallies(f0, f2, steering, followUp, kept && Keeps(r.beforeSteering), r.beforeFollowUp);
        PollFollowUpTallies(f0, f2.Receive(r.beforeFollowUp), steering, followUp, kept && RoundKeeps(r));
      }
    }
  }

  lemma AnswersSnoc(polls: seq<Poll>, p: Poll)
    ensures SteeringMessages(polls + [p]) == SteeringMessages(polls) + (if p.Steering? then p.messages else [])
    ensures FollowUpMessages(polls + [p]) == FollowUpMessages(polls) + (if p.FollowUp? then p.messages else [])
  {
    assert (polls + [p])[..|polls|] == polls;
  }

  /** The polls a turn records are the answers its queues gave. */
  lemma TakeTurnAnswers(s: LoopState, f: Feed, r: Round, mode: Mode, weave: seq<Event>)
    requires !s.done
    ensures var turn := Asked(f, r, More(s, r));
            var t := TakeTurn(s, turn, mode, weave);
            && SteeringMessages(t.polls) == SteeringMessages(s.polls) + turn.steering
            && FollowUpMessages(t.polls) == FollowUpMessages(s.polls) + turn.followUp
  {
    var turn := Asked(f, r, More(s, r));
    var after := AfterTurn(s, turn, mode, weave);
    AfterTurnFields(s, turn, mode, weave);
    AnswersFit(f, r, More(s, r));
    if Failed(r.stream.result) {
      PollsOfDecision(s.polls, [], []);
      assert TakeTurn(s, turn, mode, weave).polls == s.polls;
    } else {
      DecisionAnswers(after, turn, More(s, r));
      assert TakeTurn(s, turn, mode, weave) == Decide(after, turn, More(s, r));
    }
  }

  lemma AnswersFit(f: Feed, r: Round, more: bool)
    ensures var turn := Asked(f, r, more);
            && turn.stop == r.stop && turn.stream == r.stream
            && (Stops(r) ==> turn.steering == [] && turn.followUp == [])
            && (more || turn.steering != [] ==> turn.followUp == [])
  {
  }

  lemma DecisionAnswers(a: LoopState, turn: Turn, more: bool)
    requires a.pending == [] && !a.done
    requires turn.stop ==> turn.steering == [] && turn.followUp == []
    requires more || turn.steering != [] ==> turn.followUp == []
    ensures var t := Decide(a, turn, more);
            && SteeringMessages(t.polls) == SteeringMessages(a.polls) + turn.steering
            && FollowUpMessages(t.polls) == FollowUpMessages(a.polls) + turn.followUp
  {
    DecidePolls(a, turn, more);
    PollsOfDecision(a.polls, turn.steering, turn.followUp);
  }

  lemma PollsOfDecision(polls: seq<Poll>, steering: seq<AgentMessage>, followUp: seq<AgentMessage>)
    ensures SteeringMessages(polls) + [] == SteeringMessages(polls)
    ensures FollowUpMessages(polls) + [] == FollowUpMessages(polls)
    ensures SteeringMessages(polls + [Steering(steering)]) == SteeringMessages(polls) + steering
    ensures FollowUpMessages(polls + [Steering(steering)]) == FollowUpMessages(polls)
    ensures SteeringMessages(polls + [Steering([]), FollowUp(followUp)]) == SteeringMessages(polls)
    ensures FollowUpMessages(polls + [Steering([]), FollowUp(followUp)]) == FollowUpMessages(polls) + followUp
  {
    AnswersSnoc(polls, Steering(steering));
    AnswersSnoc(polls, Steering([]));
    AnswersSnoc(polls + [Steering([])], FollowUp(followUp));
    assert polls + [Steering([]), FollowUp(followUp)] == polls + [Steering([])] + [FollowUp(followUp)];
  }

  predicate ScriptKeeps(script: seq<Round>, n: nat)
    requires n <= |script|
  {
    forall i :: 0 <= i < n ==> RoundKeeps(script[i])
  }

  lemma {:induction false} DriveTallies(f0: Feed, d: Drive, kept: bool, played: seq<Played>)
    requires d.Takes(played)
    requires Tallies(f0, d.feed, SteeringMessages(d.start.polls), FollowUpMessages(d.start.polls), kept)
    ensures var polls := d.Loop(played).polls;
            Tallies(f0, d.Feeds(played), SteeringMessages(polls), FollowUpMessages(polls),
                    kept && ScriptKeeps(d.script, |played|))
  {
    if played != [] {
      var n := |played| - 1;
      LastRound(d, played);
      DriveTallies(f0, d, kept, played[..n]);
      RoundTallies(f0, d.Loop(played[..n]), d.Feeds(played[..n]), d.script[n], d.mode, played[n].weave,
                   kept && ScriptKeeps(d.script, n));
      KeepsOneMore(d.script, n);
    }
  }

  lemma KeepsOneMore(script: seq<Round>, n: nat)
    requires n < |script|
    ensures ScriptKeeps(script, n + 1) <==> ScriptKeeps(script, n) && RoundKeeps(script[n])
  {
  }

  /** One turn keeps the tally. */
  lemma RoundTallies(f0: Feed, s: LoopState, f: Feed, r: Round, mode: Mode, weave: seq<Event>, kept: bool)
    requires !s.done && Tallies(f0, f, SteeringMessages(s.polls), FollowUpMessages(s.polls), kept)
    ensures var t := TakeTurn(s, Asked(f, r, More(s, r)), mode, weave);
            Tallies(f0, Fed(f, r, More(s, r)), SteeringMessages(t.polls), FollowUpMessages(t.polls),
                    kept && RoundKeeps(r))
  {
    FedTallies(f0, f, r, More(s, r), SteeringMessages(s.polls), FollowUpMessages(s.polls), kept);
    TakeTurnAnswers(s, f, r, mode, weave);
  }

  lemma LaunchTallies(context: seq<AgentMessage>, tools: seq<Tool>, prompts: seq<AgentMessage>, feed: Feed,
                      before: seq<Arrival>, mode: Mode, script: seq<Round>)
    ensures var d := Launch(context, tools, prompts, feed, before, mode, script);
            Tallies(feed, d.feed, SteeringMessages(d.start.polls), FollowUpMessages(d.start.polls), Keeps(before))
  {
    var asked := feed.Receive(before);
    NothingHanded(feed.steering);
    NothingHanded(feed.followUp);
    ReceiveTallies(feed, feed, [], [], true, before);
    PollSteeringTallies(feed, asked, [], [], Keeps(before));
    AnswersSnoc([], Steering(asked.SteeringAnswer()));
    assert [] + [Steering(asked.SteeringAnswer())] == [Steering(asked.SteeringAnswer())];
  }

  // ---------------------------------------------------------------- and drains are injections

  lemma {:induction false} PolledByQueue(polls: seq<Poll>)
    ensures multiset(Polled(polls)) == multiset(SteeringMessages(polls)) + multiset(FollowUpMessages(polls))
  {
    if polls != [] {
      PolledByQueue(polls[..|polls| - 1]);
    }
  }

  /** End to end: whatever users put into the queues, wherever, and however they switch modes or clear
      them, what the run's polls took out of the queues is, in poll order, the injected messages
      followed by those waiting. The queues themselves account for every message since their last
      clear; if nobody clears, for all that the run was ever handed. */
  lemma DrainsAreInjected(context: seq<AgentMessage>, tools: seq<Tool>, prompts: seq<AgentMessage>, feed: Feed,
                          before: seq<Arrival>, mode: Mode, script: seq<Round>, played: seq<Played>)
    requires Launch(context, tools, prompts, feed, before, mode, script).Takes(played)
    ensures var d := Launch(context, tools, prompts, feed, before, mode, script);
            var s, f := d.Loop(played), d.Feeds(played);
            && Conserved(prompts, s)
            && Tallies(feed, f, SteeringMessages(s.polls), FollowUpMessages(s.polls),
                       Keeps(before) && ScriptKeeps(script, |played|))
            && multiset(SteeringMessages(s.polls)) + multiset(FollowUpMessages(s.polls))
               == multiset(Injected(s.log)) + multiset(s.pending)
  {
    var d := Launch(context, tools, prompts, feed, before, mode, script);
    var s := d.Loop(played);
    LaunchTallies(context, tools, prompts, feed, before, mode, script);
    DriveTallies(feed, d, Keeps(before), played);
    NoPolledMessageLost(context, tools, prompts, feed.Receive(before).SteeringAnswer(), mode, played);
    PolledByQueue(s.polls);
    assert multiset(Injected(s.log) + s.pending) == multiset(Injected(s.log)) + multiset(s.pending);
  }

  /** Every message handed out since its queue was last cleared is in the transcript or still waiting to
      be injected, as often as it was handed out. */
  predicate Accounted(f: Feed, transcript: seq<AgentMessage>, waiting: seq<AgentMessage>) {
    multiset(Concat(f.steering.drained)) + multiset(Concat(f.followUp.drained))
      <= multiset(transcript) + multiset(waiting)
  }

  lemma SuffixCounts<T>(a: seq<T>, b: seq<T>)
    requires IsSuffix(a, b)
    ensures multiset(a) <= multiset(b)
  {
    assert b == b[..|b| - |a|] + a;
  }

  lemma HandedCounts(q0: Queue, q1: Queue, answers: seq<AgentMessage>, kept: bool)
    requires Handed(q0, q1, answers, kept)
    ensures multiset(Concat(q1.drained)) <= multiset(Concat(q0.drained)) + multiset(answers)
  {
    SuffixCounts(Concat(q1.drained), Concat(q0.drained) + answers);
  }

  lemma {:induction false} InjectedIsTold(log: seq<TurnRecord>)
    ensures multiset(Injected(log)) <= multiset(Told(log))
  {
    if log != [] {
      var n := |log| - 1;
      InjectedIsTold(log[..n]);
      var rest := [Assistant(log[n].reply)] + AsMessages(log[n].results);
      assert log[n].injected + [Assistant(log[n].reply)] + AsMessages(log[n].results) == log[n].injected + rest;
      CountsAdd(Injected(log[..n]), Told(log[..n]), log[n].injected, rest);
    }
  }

  lemma CountsAdd<T>(a: seq<T>, b: seq<T>, c: seq<T>, d: seq<T>)
    requires multiset(a) <= multiset(b)
    ensures multiset(a + c) <= multiset(b + (c + d))
  {
    assert multiset(a + c) == multiset(a) + multiset(c);
    assert multiset(b + (c + d)) == multiset(b) + multiset(c) + multiset(d);
  }

  /** A run keeps every message accounted for: the prompts it starts from and all it polls end up in
      the transcript, but for those still waiting. */
  lemma RunAccounts(context: seq<AgentMessage>, tools: seq<Tool>, prompts: seq<AgentMessage>, feed: Feed,
                    before: seq<Arrival>, mode: Mode, script: seq<Round>, played: seq<Played>,
                    transcript: seq<AgentMessage>)
    requires Launch(context, tools, prompts, feed, before, mode, script).Takes(played)
    requires Accounted(feed, transcript, prompts)
    ensures var d := Launch(context, tools, prompts, feed, before, mode, script);
            var s := d.Loop(played);
            Accounted(d.Feeds(played), transcript + s.newMessages, s.pending)
  {
    var d := Launch(context, tools, prompts, feed, before, mode, script);
    var s, f := d.Loop(played), d.Feeds(played);
    var kept := Keeps(before) && ScriptKeeps(script, |played|);
    DrainsAreInjected(context, tools, prompts, feed, before, mode, script, played);
    HandedCounts(feed.steering, f.steering, SteeringMessages(s.polls), kept);
    HandedCounts(feed.followUp, f.followUp, FollowUpMessages(s.polls), kept);
    InjectedIsTold(s.log);
    Account(multiset(Concat(feed.steering.drained)), multiset(Concat(feed.followUp.drained)),
            multiset(Concat(f.steering.drained)), multiset(Concat(f.followUp.drained)),
            multiset(SteeringMessages(s.polls)), multiset(FollowUpMessages(s.polls)),
            transcript, prompts, Injected(s.log), Told(s.log), s.pending);
  }

  lemma Account<T>(a0: multiset<T>, b0: multiset<T>, a: multiset<T>, b: multiset<T>, x: multiset<T>, y: multiset<T>,
                   transcript: seq<T>, prompts: seq<T>, injected: seq<T>, told: seq<T>, pending: seq<T>)
    requires a0 + b0 <= multiset(transcript) + multiset(prompts)
    requires a <= a0 + x && b <= b0 + y && x + y == multiset(injected) + multiset(pending)
    requires multiset(injected) <= multiset(told)
    ensures a + b <= multiset(transcript + (prompts + told)) + multiset(pending)
  {
    var t, p, i, w := multiset(transcript), multiset(prompts), multiset(injected), multiset(pending);
    AddBoth(a, a0 + x, b, b0 + y);
    assert (a0 + x) + (b0 + y) == (a0 + b0) + (x + y);
    AddBoth(a0 + b0, t + p, x + y, i + w);
    AddBoth(i, multiset(told), t + p + w, t + p + w);
    assert (t + p) + (i + w) == i + (t + p + w);
    assert multiset(transcript + (prompts + told)) + w == multiset(told) + (t + p + w);
  }

  lemma AddBoth<T>(a: multiset<T>, b: multiset<T>, c: multiset<T>, d: multiset<T>)
    requires a <= b && c <= d
    ensures a + c <= b + d
  {
  }

  /** So every message queued since the last clear of its queue is still queued, waiting, or in the
      transcript, as often as it was queued. */
  lemma NothingQueuedIsLost(f: Feed, transcript: seq<AgentMessage>, waiting: seq<AgentMessage>)
    requires Conserves(f.steering) && Conserves(f.followUp) && Accounted(f, transcript, waiting)
    ensures multiset(f.steering.enqueued) + multiset(f.followUp.enqueued)
         <= multiset(f.steering.messages) + multiset(f.followUp.messages) + multiset(waiting) + multiset(transcript)
  {
    var a, b := multiset(Concat(f.steering.drained)), multiset(Concat(f.followUp.drained));
    var queued := multiset(f.steering.messages) + multiset(f.followUp.messages);
    AddBoth(a + b, multiset(transcript) + multiset(waiting), queued, queued);
    assert multiset(f.steering.enqueued) == a + multiset(f.steering.messages);
    assert multiset(f.followUp.enqueued) == b + multiset(f.followUp.messages);
    assert multiset(f.steering.enqueued) + multiset(f.followUp.enqueued) == a + b + queued;
  }

  /** Prompts given by the user come on top of what the queues hand out. */
  lemma PromptsAccount(f: Feed, transcript: seq<AgentMessage>, prompts: seq<AgentMessage>)
    ensures Accounted(f, transcript, []) ==> Accounted(f, transcript, prompts)
  {
  }

  /** What `continue()` takes out of a queue waits to be announced by the run it starts. */
  lemma ContinueAccounts(a: Lifecycle.AgentState)
    ensures var (b, answer) := Lifecycle.ContinueStep(a);
            && (Accounted(a.feed, a.host.messages, []) ==>
                  Accounted(b.feed, b.host.messages, if answer.RunStarted? then answer.prompts else []))
            && (Conserves(a.feed.steering) && Conserves(a.feed.followUp) ==>
                  Conserves(b.feed.steering) && Conserves(b.feed.followUp))
  {
    var f := a.feed;
    var g := f.(steering := Apply(f.steering, Drain));
    DrainAccounts(f, a.host.messages);
    if f.steering.messages == [] {
      DrainAccounts(g, a.host.messages);
    }
  }

  lemma DrainAccounts(f: Feed, transcript: seq<AgentMessage>)
    ensures var g, handed := f.(steering := Apply(f.steering, Drain)), Drained(f.steering.mode, f.steering.messages);
            && (Accounted(f, transcript, []) ==> Accounted(g, transcript, handed))
            && (Conserves(f.steering) ==> Conserves(g.steering))
    ensures var g, handed := f.(followUp := Apply(f.followUp, Drain)), Drained(f.followUp.mode, f.followUp.messages);
            && (Accounted(f, transcript, []) ==> Accounted(g, transcript, handed))
            && (Conserves(f.followUp) ==> Conserves(g.followUp))
  {
    DrainedCounts(f.steering);
    DrainedCounts(f.followUp);
    if Accounted(f, transcript, []) {
      var a, b := multiset(Concat(f.steering.drained)), multiset(Concat(f.followUp.drained));
      assert a + b <= multiset(transcript);
      HandOn(a, b, multiset(transcript), multiset(Drained(f.steering.mode, f.steering.messages)));
      HandOn(b, a, multiset(transcript), multiset(Drained(f.followUp.mode, f.followUp.messages)));
    }
  }

  lemma HandOn<T>(a: multiset<T>, b: multiset<T>, t: multiset<T>, handed: multiset<T>)
    requires a + b <= t
    ensures (a + handed) + b <= t + handed && b + (a + handed) <= t + handed
  {
  }

  lemma DrainedCounts(q: Queue)
    ensures multiset(Concat(Apply(q, Drain).drained)) == multiset(Concat(q.drained)) + multiset(Drained(q.mode, q.messages))
    ensures Conserves(q) ==> Conserves(Apply(q, Drain))
  {
    var first := Drained(q.mode, q.messages);
    assert (q.drained + [first])[..|q.drained|] == q.drained;
    if Conserves(q) {
      ApplyConserves(q, Drain);
    }
  }

  /** Nothing else a user can do disturbs the account: not even a reset, which forgets the transcript
      together with what was handed out into it. */
  lemma ActionsAccount(a: Lifecycle.AgentState, action: Lifecycle.Action, waiting: seq<AgentMessage>)
    requires Lifecycle.Enabled(a, action) && !action.Continue? && !action.PollSteering? && !action.PollFollowUps?
    requires Accounted(a.feed, a.host.messages, waiting)
    ensures var b := Lifecycle.Step(a, action).0;
            Accounted(b.feed, b.host.messages, waiting)
  {
    match action
    case Emit(event) =>
      FoldSnoc(a.host, [], event);
      FoldMessages(a.host, [event]);
    case Throw(error, delivered) =>
      FoldMessages(a.host, Lifecycle.FailureEvents(Lifecycle.FailureMessage(a.active.value.aborted, error))[..delivered]);
    case Late(event) =>
      FoldSnoc(a.host, [], event);
      FoldMessages(a.host, [event]);
    case _ =>
  }

  // ---------------------------------------------------------------- a throw between a poll and its injection

  lemma {:induction false} PairsCut(messages: seq<AgentMessage>, m: nat)
    requires m <= |Pairs(messages)|
    ensures |Pairs(messages)| == 2 * |messages|
    ensures MessageEnds(Pairs(messages)[..m]) == messages[..m / 2]
  {
    if messages != [] {
      var n := |messages| - 1;
      var init, last := messages[..n], messages[n];
      PairsCut(init, if m <= |Pairs(init)| then m else 0);
      if m <= |Pairs(init)| {
        assert Pairs(messages)[..m] == Pairs(init)[..m] && init[..m / 2] == messages[..m / 2];
      } else {
        MessageEndsOfPairs(init);
        MessageEndsConcat(Pairs(init), [MessageStart(last)]);
        MessageEndsOfOne(MessageStart(last));
        if m == |Pairs(messages)| {
          MessageEndsOfPairs(messages);
          assert Pairs(messages)[..m] == Pairs(messages) && messages[..m / 2] == messages;
        } else {
          assert Pairs(messages)[..m] == Pairs(init) + [MessageStart(last)] && messages[..m / 2] == init;
        }
      }
    }
  }

  /** How many of the messages waiting for a turn are injected by its first `m` events: the first event
      of any turn but the first announces the turn, and each message takes two. */
  function InjectedBy(first: bool, pending: seq<AgentMessage>, m: nat): (k: nat)
    ensures k <= |pending|
    ensures k == |pending| <==> pending == [] || m >= 2 * |pending| + (if first then 0 else 1)
  {
    var opening := if first then 0 else 1;
    if m <= opening then 0
    else if m >= 2 * |pending| + opening then |pending|
    else (m - opening) / 2
  }

  lemma OpeningCut(first: bool, pending: seq<AgentMessage>, m: nat)
    requires m <= |Opening(first, pending)|
    ensures |Opening(first, pending)| == 2 * |pending| + (if first then 0 else 1)
    ensures MessageEnds(Opening(first, pending)[..m]) == pending[..InjectedBy(first, pending, m)]
  {
    PairsCut(pending, 0);
    if first {
      assert Opening(first, pending) == Pairs(pending);
      PairsCut(pending, m);
    } else if m == 0 {
      assert Opening(first, pending)[..0] == [];
    } else {
      PairsCut(pending, m - 1);
      assert Opening(first, pending)[..m] == [TurnStart] + Pairs(pending)[..m - 1];
      MessageEndsConcat([TurnStart], Pairs(pending)[..m - 1]);
      MessageEndsOfOne(TurnStart);
    }
  }

  /** What a turn cut off after `m` events has put into the transcript: the messages injected so far and
      nothing else, or all of them and whatever ended after them. */
  lemma TurnCut(s: LoopState, turn: Turn, mode: Mode, weave: seq<Event>, m: nat)
    requires m <= |TurnTrace(s, turn, mode, weave)|
    ensures var ended, k := MessageEnds(TurnTrace(s, turn, mode, weave)[..m]), InjectedBy(s.first, s.pending, m);
            && s.pending[..k] <= ended
            && (m <= |Opening(s.first, s.pending)| ==> ended == s.pending[..k])
  {
    TurnOpens(s, turn, mode, weave);
    CutAfterOpening(s.first, s.pending, TurnTrace(s, turn, mode, weave), m);
  }

  lemma CutAfterOpening(first: bool, pending: seq<AgentMessage>, trace: seq<Event>, m: nat)
    requires Opening(first, pending) <= trace && m <= |trace|
    ensures var ended, k := MessageEnds(trace[..m]), InjectedBy(first, pending, m);
            && pending[..k] <= ended
            && (m <= |Opening(first, pending)| ==> ended == pending[..k])
  {
    var opening := Opening(first, pending);
    if m <= |opening| {
      OpeningCut(first, pending, m);
      assert trace[..m] == opening[..m];
    } else {
      OpeningCut(first, pending, |opening|);
      assert opening[..|opening|] == opening && pending[..|pending|] == pending;
      assert trace[..m] == opening + trace[|opening|..m];
      MessageEndsConcat(opening, trace[|opening|..m]);
    }
  }

  lemma TurnOpens(s: LoopState, turn: Turn, mode: Mode, weave: seq<Event>)
    ensures Opening(s.first, s.pending) <= TurnTrace(s, turn, mode, weave)
  {
  }

  /** A throw in a turn, after `m` of its events have reached the host, loses exactly the polled messages
      not injected by then, and none if and only if none was waiting or all of them had been announced.
      Those lost are no longer queued and not in the transcript; everything else is accounted for. */
  lemma ThrowLosesTheUninjected(h: State, context: seq<AgentMessage>, tools: seq<Tool>, prompts: seq<AgentMessage>,
                                feed: Feed, before: seq<Arrival>, mode: Mode, script: seq<Round>, played: seq<Played>,
                                turn: Turn, weave: seq<Event>, m: nat)
    requires Launch(context, tools, prompts, feed, before, mode, script).Takes(played)
    requires var s := Launch(context, tools, prompts, feed, before, mode, script).Loop(played);
             !s.done && m <= |TurnTrace(s, turn, mode, weave)|
    ensures var d := Launch(context, tools, prompts, feed, before, mode, script);
            var s := d.Loop(played);
            var k := InjectedBy(s.first, s.pending, m);
            var ended, lost := MessageEnds(TurnTrace(s, turn, mode, weave)[..m]), s.pending[k..];
            var transcript := h.messages + s.newMessages + ended;
            && Fold(h, s.trace + TurnTrace(s, turn, mode, weave)[..m]).messages == transcript
            && Polled(s.polls) == Injected(s.log) + s.pending[..k] + lost
            && s.pending[..k] <= ended && (lost != [] ==> ended == s.pending[..k])
            && (lost == [] <==> s.pending == [] || m >= |Opening(s.first, s.pending)|)
            && (Accounted(feed, h.messages, prompts) ==> Accounted(d.Feeds(played), transcript, lost))
  {
    var d := Launch(context, tools, prompts, feed, before, mode, script);
    var s := d.Loop(played);
    var events := TurnTrace(s, turn, mode, weave)[..m];
    var k := InjectedBy(s.first, s.pending, m);
    TranscriptGrowsByReturned(h, context, tools, prompts, feed.Receive(before).SteeringAnswer(), mode, played);
    CutTranscript(h, s, events);
    DrainsAreInjected(context, tools, prompts, feed, before, mode, script, played);
    SplitWaiting(Injected(s.log), s.pending, k);
    TurnCut(s, turn, mode, weave, m);
    OpeningCut(s.first, s.pending, 0);
    if Accounted(feed, h.messages, prompts) {
      RunAccounts(context, tools, prompts, feed, before, mode, script, played, h.messages);
      AccountForCut(d.Feeds(played), h.messages + s.newMessages, s.pending, k, MessageEnds(events));
    }
  }

  lemma CutTranscript(h: State, s: LoopState, events: seq<Event>)
    requires MessageEnds(s.trace) == s.newMessages
    ensures Fold(h, s.trace + events).messages == h.messages + s.newMessages + MessageEnds(events)
  {
    FoldMessages(h, s.trace + events);
    MessageEndsConcat(s.trace, events);
    Assoc(h.messages, s.newMessages, MessageEnds(events));
  }

  lemma SplitWaiting<T>(injected: seq<T>, pending: seq<T>, k: nat)
    requires k <= |pending|
    ensures injected + pending == injected + pending[..k] + pending[k..]
    ensures pending[k..] == [] <==> k == |pending|
  {
    assert pending == pending[..k] + pending[k..];
    Assoc(injected, pending[..k], pending[k..]);
  }

  lemma AccountForCut(f: Feed, transcript: seq<AgentMessage>, pending: seq<AgentMessage>, k: nat, ended: seq<AgentMessage>)
    requires Accounted(f, transcript, pending) && k <= |pending| && pending[..k] <= ended
    ensures Accounted(f, transcript + ended, pending[k..])
  {
    assert pending == pending[..k] + pending[k..];
    assert ended == pending[..k] + ended[k..];
    var t, x, y, z := multiset(transcript), multiset(pending[..k]), multiset(pending[k..]), multiset(ended[k..]);
    assert multiset(transcript + ended) + y == (t + (x + y)) + z;
  }

  /** A throw while the prompts are announced: those of a run begun by `continue()` have been taken out
      of their queue, and the ones not announced yet are lost likewise. */
  lemma ThrowLosesPrompts(h: State, prompts: seq<AgentMessage>, feed: Feed, m: nat)
    requires m <= |[AgentStart, TurnStart] + Pairs(prompts)|
    ensures var k := InjectedBy(true, prompts, if m < 2 then 0 else m - 2);
            && Fold(h, ([AgentStart, TurnStart] + Pairs(prompts))[..m]).messages == h.messages + prompts[..k]
            && (prompts[k..] == [] <==> prompts == [] || m == |[AgentStart, TurnStart] + Pairs(prompts)|)
            && (Accounted(feed, h.messages, prompts) ==> Accounted(feed, h.messages + prompts[..k], prompts[k..]))
  {
    var k := InjectedBy(true, prompts, if m < 2 then 0 else m - 2);
    FoldMessages(h, ([AgentStart, TurnStart] + Pairs(prompts))[..m]);
    PairsCut(prompts, 0);
    PromptsCut(prompts, m);
    SplitWaiting([], prompts, k);
    if Accounted(feed, h.messages, prompts) {
      AccountForCut(feed, h.messages, prompts, k, prompts[..k]);
    }
  }

  lemma PromptsCut(prompts: seq<AgentMessage>, m: nat)
    requires m <= |[AgentStart, TurnStart] + Pairs(prompts)|
    ensures MessageEnds(([AgentStart, TurnStart] + Pairs(prompts))[..m])
         == prompts[..InjectedBy(true, prompts, if m < 2 then 0 else m - 2)]
  {
    var opening: seq<Event> := [AgentStart, TurnStart];
    var cut := (opening + Pairs(prompts))[..m];
    if m < 2 {
      assert forall e :: e in cut ==> e == AgentStart;
      NoMessageEnds(cut);
    } else {
      PairsCut(prompts, m - 2);
      assert cut == opening + Pairs(prompts)[..m - 2];
      MessageEndsConcat(opening, Pairs(prompts)[..m - 2]);
      NoMessageEnds(opening);
    }
  }
}
