/** One-at-a-time steering: a run that starts from the first queued message injects the others over
    successive turns. */
module Pacing {
  import opened Messages
  import opened ToolBatch
  import opened LoopSpec
  import opened LoopTheorems
  import opened RunTheorems
  import opened Queues
  import opened Polling
  import opened Driving
  import Lifecycle

  /** The queues after `k` steering polls with nothing else in between. */
  function AfterPolls(f: Feed, k: nat): Feed
    decreases k
  {
    if k == 0 then f else AfterPolls(f.PollSteering(), k - 1)
  }

  lemma {:induction false} PollsHandOutInOrder(f: Feed, k: nat)
    requires !f.skipInitialSteeringPoll && f.steering.mode == OneAtATime
    ensures AfterPolls(f, k).SteeringAnswer() == NthDrain(f.steering.messages, k)
    decreases k
  {
    if k > 0 {
      PollsHandOutInOrder(f.PollSteering(), k - 1);
    }
  }

  predicate ContinuesOneByOne(a: Lifecycle.AgentState) {
    && a.active.None? && a.feed.steering.mode == OneAtATime && a.feed.steering.messages != []
    && a.host.messages != [] && a.host.messages[|a.host.messages| - 1].Assistant?
  }

  /** What `continue()` on a reply feeds the loop in one-at-a-time mode: the run starts from the first
      queued message alone, its initial poll finds nothing, and poll `k` after that hands out queued
      message `k + 1`, or nothing once the queue is used up. */
  lemma ContinueFeedsOneByOne(a: Lifecycle.AgentState, k: nat)
    requires ContinuesOneByOne(a)
    ensures var (b, answer) := Lifecycle.ContinueStep(a);
            var queued := a.feed.steering.messages;
            && answer == Lifecycle.RunStarted([queued[0]]) && b.active.Some?
            && b.feed.SteeringAnswer() == []
            && AfterPolls(b.feed, k + 1).SteeringAnswer() == if k + 1 < |queued| then [queued[k + 1]] else []
  {
    var b, queued := Lifecycle.ContinueStep(a).0, a.feed.steering.messages;
    assert queued[..1] == [queued[0]];
    PollsHandOutInOrder(b.feed.PollSteering(), k);
    NthDrainIsNth(queued[1..], k);
  }

  // ---------------------------------------------------------------- the run that is so fed

  /** Users may go on queueing, and do with the follow-up queue what they like. */
  predicate OnlyAdds(arrivals: seq<Arrival>) {
    forall a :: a in arrivals && a.ToSteering? ==> a.change.Enqueue?
  }

  /** No turn ends the run early. */
  predicate Calm(r: Round) {
    !Stops(r) && OnlyAdds(r.beforeSteering) && OnlyAdds(r.beforeFollowUp)
  }

  /** The steering queue has yet to hand out `rest`, one at a time. */
  predicate HasYet(f: Feed, rest: seq<AgentMessage>) {
    f.steering.mode == OneAtATime && rest <= f.steering.messages
  }

  lemma {:induction false} AddingKeepsOrder(f: Feed, rest: seq<AgentMessage>, arrivals: seq<Arrival>)
    requires HasYet(f, rest) && OnlyAdds(arrivals)
    ensures HasYet(f.Receive(arrivals), rest)
    ensures f.Receive(arrivals).skipInitialSteeringPoll == f.skipInitialSteeringPoll
  {
    if arrivals != [] {
      var n := |arrivals| - 1;
      assert forall a :: a in arrivals[..n] ==> a in arrivals;
      assert arrivals[n] in arrivals;
      AddingKeepsOrder(f, rest, arrivals[..n]);
    }
  }

  /** The polls of a calm turn hand out the first message of `rest`. */
  lemma CalmTurnHandsOutNext(f: Feed, rest: seq<AgentMessage>, r: Round, more: bool)
    requires HasYet(f, rest) && !f.skipInitialSteeringPoll && Calm(r)
    ensures rest != [] ==> Asked(f, r, more).steering == [rest[0]]
    ensures HasYet(Fed(f, r, more), if rest == [] then [] else rest[1..])
    ensures !Fed(f, r, more).skipInitialSteeringPoll
  {
    var f1 := f.Receive(r.beforeSteering);
    AddingKeepsOrder(f, rest, r.beforeSteering);
    var left := if rest == [] then [] else rest[1..];
    assert HasYet(f1.PollSteering(), left);
    if rest != [] {
      assert f1.steering.messages[..1] == [rest[0]];
    }
    AddingKeepsOrder(f1.PollSteering(), left, r.beforeFollowUp);
  }

  /** After `n` turns the `i`-th message after the first was injected by turn `i + 1`, and the next one waits. */
  predicate InStep(queued: seq<AgentMessage>, s: LoopState) {
    var n := |s.log|;
    && (n == 0 ==> s.pending == [])
    && (n > 0 ==> s.log[0].injected == [])
    && (forall i :: 0 <= i < |queued| && i + 1 < n ==> s.log[i + 1].injected == [queued[i]])
    && (0 < n <= |queued| ==> !s.done && s.pending == [queued[n - 1]])
  }

  lemma LogKeepsStep(queued: seq<AgentMessage>, s: LoopState, t: LoopState, r: TurnRecord)
    requires InStep(queued, s) && t.log == s.log + [r] && r.injected == s.pending
    requires |s.log| < |queued| ==> !t.done && t.pending == [queued[|s.log|]]
    ensures InStep(queued, t)
  {
    assert forall i :: 0 <= i < |s.log| ==> t.log[i] == s.log[i];
    assert t.log[|s.log|] == r;
  }

  lemma TurnKeepsStep(queued: seq<AgentMessage>, s: LoopState, turn: Turn, mode: Mode, weave: seq<Event>)
    requires InStep(queued, s) && !s.done && !turn.stop && !Failed(turn.stream.result)
    requires |s.log| < |queued| ==> turn.steering == [queued[|s.log|]]
    ensures InStep(queued, TakeTurn(s, turn, mode, weave))
  {
    TakeTurnFields(s, turn, mode, weave);
    if |s.log| < |queued| {
      SteeringIsPending(s, turn, mode, weave);
    }
    LogKeepsStep(queued, s, TakeTurn(s, turn, mode, weave), RecordOf(s, turn));
  }

  /** Polled steering messages wait for the next turn unless the run ends early. */
  lemma SteeringIsPending(s: LoopState, turn: Turn, mode: Mode, weave: seq<Event>)
    requires !s.done && !turn.stop && !Failed(turn.stream.result) && turn.steering != []
    ensures !TakeTurn(s, turn, mode, weave).done && TakeTurn(s, turn, mode, weave).pending == turn.steering
  {
    AfterTurnFields(s, turn, mode, weave);
    DecidePolls(AfterTurn(s, turn, mode, weave), turn, MoreToolCalls(TurnBatch(s, turn), turn));
  }

  lemma {:induction false} DriveKeepsStep(queued: seq<AgentMessage>, d: Drive, played: seq<Played>)
    requires d.start.log == [] && InStep(queued, d.start)
    requires HasYet(d.feed, queued) && !d.feed.skipInitialSteeringPoll
    requires d.Takes(played) && forall i :: 0 <= i < |played| ==> Calm(d.script[i])
    ensures var s, f := d.Loop(played), d.Feeds(played);
            && |s.log| == |played| && InStep(queued, s)
            && HasYet(f, if |played| <= |queued| then queued[|played|..] else []) && !f.skipInitialSteeringPoll
  {
    if played != [] {
      var n := |played| - 1;
      LastRound(d, played);
      DriveKeepsStep(queued, d, played[..n]);
      CalmTurnKeepsStep(queued, d.Loop(played[..n]), d.Feeds(played[..n]), d.script[n], d.mode, played[n].weave);
    }
  }

  lemma CalmTurnKeepsStep(queued: seq<AgentMessage>, s: LoopState, f: Feed, r: Round, mode: Mode, weave: seq<Event>)
    requires InStep(queued, s) && !s.done && Calm(r) && !f.skipInitialSteeringPoll
    requires HasYet(f, if |s.log| <= |queued| then queued[|s.log|..] else [])
    ensures var t, f' := TakeTurn(s, Asked(f, r, More(s, r)), mode, weave), Fed(f, r, More(s, r));
            && |t.log| == |s.log| + 1 && InStep(queued, t) && !f'.skipInitialSteeringPoll
            && HasYet(f', if |t.log| <= |queued| then queued[|t.log|..] else [])
  {
    var n, more := |s.log|, More(s, r);
    CalmTurnHandsOutNext(f, if n <= |queued| then queued[n..] else [], r, more);
    CalmTurn(f, r, more);
    TurnKeepsStep(queued, s, Asked(f, r, more), mode, weave);
    TakeTurnFields(s, Asked(f, r, more), mode, weave);
    if n < |queued| {
      assert queued[n..][1..] == queued[n + 1..];
    }
  }

  lemma CalmTurn(f: Feed, r: Round, more: bool)
    requires Calm(r)
    ensures !Asked(f, r, more).stop && !Failed(Asked(f, r, more).stream.result)
  {
  }

  /** Continuing after a reply in one-at-a-time mode: the run starts from the first queued message alone,
      each later one opens a turn of its own in queue order, and the run does not end before all of them
      have been answered, whatever else users queue meanwhile. */
  lemma SteeringIsPaced(a: Lifecycle.AgentState, tools: seq<Tool>, before: seq<Arrival>, mode: Mode,
                        script: seq<Round>, played: seq<Played>)
    requires ContinuesOneByOne(a) && OnlyAdds(before)
    requires var (b, answer) := Lifecycle.ContinueStep(a);
             && answer.RunStarted?
             && Launch(b.host.messages, tools, answer.prompts, b.feed, before, mode, script).Takes(played)
             && forall i :: 0 <= i < |played| ==> Calm(script[i])
    ensures var (b, answer) := Lifecycle.ContinueStep(a);
            var d := Launch(b.host.messages, tools, answer.prompts, b.feed, before, mode, script);
            var first, queued, s := a.feed.steering.messages[0], a.feed.steering.messages[1..], d.Loop(played);
            && answer.prompts == [first]
            && |s.log| == |played| && InStep(queued, s)
            && (s.done ==> |s.log| >= |queued| + 1)
  {
    var (b, answer) := Lifecycle.ContinueStep(a);
    var d := Launch(b.host.messages, tools, answer.prompts, b.feed, before, mode, script);
    var queued := a.feed.steering.messages[1..];
    ContinueFeedsOneByOne(a, 0);
    AddingKeepsOrder(b.feed, queued, before);
    DriveKeepsStep(queued, d, played);
  }
}
