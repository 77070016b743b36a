/** Conservation, progress and pairing over whole runs of the agent loop. */
module RunTheorems {
  import opened Options
  import opened Messages
  import opened HostState
  import opened ToolBatch
  import opened Streaming
  import opened LoopSpec
  import opened LoopTheorems
  import opened BatchTheorems

  // ---------------------------------------------------------------- polled messages

  function Injected(log: seq<TurnRecord>): seq<AgentMessage> {
    if log == [] then [] else Injected(log[..|log| - 1]) + log[|log| - 1].injected
  }

  function Polled(polls: seq<Poll>): seq<AgentMessage> {
    if polls == [] then [] else Polled(polls[..|polls| - 1]) + polls[|polls| - 1].messages
  }

  /** The conversation of a run turn by turn: what was injected, the reply, its results. */
  function Told(log: seq<TurnRecord>): seq<AgentMessage> {
    if log == [] then []
    else
      var last := log[|log| - 1];
      Told(log[..|log| - 1]) + (last.injected + [Assistant(last.reply)] + AsMessages(last.results))
  }

  /** The polls of a run against its turns: one steering poll at the start and one after each turn that
      does not end the run at once, and a follow-up poll only right after an empty steering poll that
      follows a turn without further tool calls. */
  predicate PollsFit(polls: seq<Poll>, log: seq<TurnRecord>, ended: bool)
    decreases |log|
  {
    var n, m := |log| - 1, |polls|;
    if log == [] then m == 1 && polls[0].Steering? && !ended
    else
      || (m > 1 && polls[m - 1].Steering? && !ended && PollsFit(polls[..m - 1], log[..n], false))
      || (m > 2 && polls[m - 1].FollowUp? && polls[m - 2] == Steering([]) && !log[n].more
          && (ended <==> polls[m - 1].messages == []) && PollsFit(polls[..m - 2], log[..n], false))
      || (ended && PollsFit(polls, log[..n], false))
  }

  predicate Conserved(prompts: seq<AgentMessage>, s: LoopState) {
    && Injected(s.log) + s.pending == Polled(s.polls)
    && s.newMessages == prompts + Told(s.log)
    && PollsFit(s.polls, s.log, s.done)
    && (s.done ==> s.pending == [])
  }

  lemma PolledSnoc(polls: seq<Poll>, poll: Poll)
    ensures Polled(polls + [poll]) == Polled(polls) + poll.messages
  {
    assert (polls + [poll])[..|polls|] == polls;
  }

  lemma PolledSnocTwo(polls: seq<Poll>, a: Poll, b: Poll)
    requires a.messages == []
    ensures Polled(polls + [a, b]) == Polled(polls) + b.messages
  {
    PolledSnoc(polls, a);
    PolledSnoc(polls + [a], b);
    assert polls + [a, b] == polls + [a] + [b];
  }

  lemma LogSnoc(log: seq<TurnRecord>, r: TurnRecord)
    ensures Injected(log + [r]) == Injected(log) + r.injected
    ensures Told(log + [r]) == Told(log) + (r.injected + [Assistant(r.reply)] + AsMessages(r.results))
  {
    assert (log + [r])[..|log|] == log;
  }

  lemma PollsFitMore(polls: seq<Poll>, log: seq<TurnRecord>, r: TurnRecord, m: seq<AgentMessage>)
    requires PollsFit(polls, log, false)
    ensures PollsFit(polls + [Steering(m)], log + [r], false)
    ensures PollsFit(polls, log + [r], true)
  {
    assert (log + [r])[..|log|] == log && (polls + [Steering(m)])[..|polls|] == polls;
    assert polls != [];
  }

  lemma PollsFitIdle(polls: seq<Poll>, log: seq<TurnRecord>, r: TurnRecord, m: seq<AgentMessage>)
    requires PollsFit(polls, log, false) && !r.more
    ensures PollsFit(polls + [Steering([]), FollowUp(m)], log + [r], m == [])
  {
    assert (log + [r])[..|log|] == log && (polls + [Steering([]), FollowUp(m)])[..|polls|] == polls;
    assert polls != [];
  }

  /** The two ways a decision can go, as far as the queues are concerned. */
  lemma DecidePolls(a: LoopState, turn: Turn, more: bool)
    requires a.pending == [] && !a.done
    ensures var t := Decide(a, turn, more);
            && t.log == a.log && t.newMessages == a.newMessages
            && (turn.stop ==> t.done && t.polls == a.polls && t.pending == [])
            && (!turn.stop && (more || turn.steering != []) ==>
                  !t.done && t.polls == a.polls + [Steering(turn.steering)] && t.pending == turn.steering)
            && (!turn.stop && !more && turn.steering == [] ==>
                  t.done == (turn.followUp == []) && t.pending == turn.followUp &&
                  t.polls == a.polls + [Steering([]), FollowUp(turn.followUp)])
  {
  }

  lemma TakeTurnPolls(s: LoopState, turn: Turn, mode: Mode, weave: seq<Event>)
    requires !s.done
    ensures var t, r := TakeTurn(s, turn, mode, weave), RecordOf(s, turn);
            || (t.done && t.polls == s.polls && t.pending == [])
            || (!t.done && (r.more || t.pending != []) && t.polls == s.polls + [Steering(t.pending)])
            || (!r.more && t.polls == s.polls + [Steering([]), FollowUp(t.pending)] && t.done == (t.pending == []))
  {
    AfterTurnFields(s, turn, mode, weave);
    DecidePolls(AfterTurn(s, turn, mode, weave), turn, MoreToolCalls(TurnBatch(s, turn), turn));
  }

  lemma TurnConserves(prompts: seq<AgentMessage>, s: LoopState, turn: Turn, mode: Mode, weave: seq<Event>)
    requires !s.done && Conserved(prompts, s)
    ensures Conserved(prompts, TakeTurn(s, turn, mode, weave))
  {
    var t, r := TakeTurn(s, turn, mode, weave), RecordOf(s, turn);
    TakeTurnFields(s, turn, mode, weave);
    TakeTurnPolls(s, turn, mode, weave);
    LogSnoc(s.log, r);
    Assoc(prompts, Told(s.log), TurnMessages(s, turn));
    assert Injected(t.log) == Polled(s.polls);
    PollsFitMore(s.polls, s.log, r, t.pending);
    if t.done && t.polls == s.polls {
      assert Injected(t.log) + t.pending == Polled(t.polls);
    } else if t.polls == s.polls + [Steering(t.pending)] {
      PolledSnoc(s.polls, Steering(t.pending));
    } else {
      PolledSnocTwo(s.polls, Steering([]), FollowUp(t.pending));
      PollsFitIdle(s.polls, s.log, r, t.pending);
    }
  }

  lemma StartConserves(context: seq<AgentMessage>, tools: seq<Tool>, prompts: seq<AgentMessage>, poll: seq<AgentMessage>)
    ensures Conserved(prompts, Start(context, tools, prompts, poll))
  {
    PolledSnoc([], Steering(poll));
    assert [] + [Steering(poll)] == [Steering(poll)];
  }

  /** No polled message is lost or repeated: at every turn boundary the injected messages followed by
      those waiting are all poll results in poll order, nothing waits when the run ends, and the
      returned messages are the prompts followed by the turns. */
  lemma {:induction false} NoPolledMessageLost(context: seq<AgentMessage>, tools: seq<Tool>, prompts: seq<AgentMessage>,
                                               poll: seq<AgentMessage>, mode: Mode, played: seq<Played>)
    requires LegalRun(Start(context, tools, prompts, poll), mode, played)
    ensures Conserved(prompts, Run(Start(context, tools, prompts, poll), mode, played))
  {
    if played == [] {
      StartConserves(context, tools, prompts, poll);
    } else {
      var n := |played| - 1;
      NoPolledMessageLost(context, tools, prompts, poll, mode, played[..n]);
      TurnConserves(prompts, Run(Start(context, tools, prompts, poll), mode, played[..n]),
                    played[n].turn, mode, played[n].weave);
    }
  }

  // ---------------------------------------------------------------- the number of turns

  function Continuing(log: seq<TurnRecord>): nat {
    if log == [] then 0 else Continuing(log[..|log| - 1]) + (if log[|log| - 1].more then 1 else 0)
  }

  function NonEmpty(polls: seq<Poll>): nat {
    if polls == [] then 0 else NonEmpty(polls[..|polls| - 1]) + (if polls[|polls| - 1].messages != [] then 1 else 0)
  }

  lemma NonEmptySnoc(polls: seq<Poll>, a: Poll)
    ensures NonEmpty(polls + [a]) == NonEmpty(polls) + (if a.messages != [] then 1 else 0)
  {
    assert (polls + [a])[..|polls|] == polls;
  }

  lemma NonEmptySnocTwo(polls: seq<Poll>, a: Poll)
    ensures NonEmpty(polls + [Steering([]), a]) == NonEmpty(polls) + (if a.messages != [] then 1 else 0)
  {
    NonEmptySnoc(polls, Steering([]));
    NonEmptySnoc(polls + [Steering([])], a);
    assert polls + [Steering([]), a] == polls + [Steering([])] + [a];
  }

  lemma ContinuingSnoc(log: seq<TurnRecord>, r: TurnRecord)
    ensures Continuing(log + [r]) == Continuing(log) + (if r.more then 1 else 0)
  {
    assert (log + [r])[..|log|] == log;
  }

  /** Every turn but the last is owed to a tool batch that goes on or to a poll that found something. */
  predicate Bounded(initial: Poll, s: LoopState) {
    |s.log| + NonEmpty([initial]) <= Continuing(s.log) + NonEmpty(s.polls) + (if s.done then 1 else 0)
  }

  lemma TurnBounded(initial: Poll, s: LoopState, turn: Turn, mode: Mode, weave: seq<Event>)
    requires !s.done && Bounded(initial, s)
    ensures Bounded(initial, TakeTurn(s, turn, mode, weave))
  {
    var t, r := TakeTurn(s, turn, mode, weave), RecordOf(s, turn);
    TakeTurnFields(s, turn, mode, weave);
    TakeTurnPolls(s, turn, mode, weave);
    ContinuingSnoc(s.log, r);
    NonEmptySnoc(s.polls, Steering(t.pending));
    NonEmptySnocTwo(s.polls, FollowUp(t.pending));
  }

  /** The number of turns is at most one more than the tool batches that asked to go on plus the polls
      after the start that found something: a run ends whenever the outside world runs out of both. */
  lemma {:induction false} TurnsAreBounded(context: seq<AgentMessage>, tools: seq<Tool>, prompts: seq<AgentMessage>,
                                           poll: seq<AgentMessage>, mode: Mode, played: seq<Played>)
    requires LegalRun(Start(context, tools, prompts, poll), mode, played)
    ensures Bounded(Steering(poll), Run(Start(context, tools, prompts, poll), mode, played))
    ensures |Run(Start(context, tools, prompts, poll), mode, played).log| == |played|
  {
    if played != [] {
      var n := |played| - 1;
      TurnsAreBounded(context, tools, prompts, poll, mode, played[..n]);
      var s := Run(Start(context, tools, prompts, poll), mode, played[..n]);
      TurnBounded(Steering(poll), s, played[n].turn, mode, played[n].weave);
      TakeTurnFields(s, played[n].turn, mode, played[n].weave);
    }
  }

  // ---------------------------------------------------------------- calls and results

  function ResultIds(results: seq<ToolResultMessage>): seq<(string, string)> {
    seq(|results|, i requires 0 <= i < |results| => (results[i].toolCallId, results[i].toolName))
  }

  function CallIds(calls: seq<ToolCall>): seq<(string, string)> {
    seq(|calls|, i requires 0 <= i < |calls| => (calls[i].id, calls[i].name))
  }

  /** No abort is seen between two calls of the reply. */
  predicate Uninterrupted(turn: Turn) {
    Batch(ToolCalls(turn.stream.result), [], turn.fate).Uninterrupted(0)
  }

  predicate Paired(r: TurnRecord, turn: Turn) {
    var calls := CallIds(ToolCalls(r.reply));
    && r.reply == turn.stream.result
    && (Failed(r.reply) ==> r.results == [] && !r.more)
    && (!Failed(r.reply) ==>
          && ResultIds(r.results) <= calls
          && (calls != [] ==> r.results != [])
          && (ResultIds(r.results) == calls <==> Uninterrupted(turn)))
  }

  lemma RecordIsPaired(s: LoopState, turn: Turn)
    ensures Paired(RecordOf(s, turn), turn)
  {
    var b := TurnBatch(s, turn);
    if ServesTools(b, turn) {
      b.TakenIsPrefix();
      var records := b.Taken();
      assert ResultIds(Results(records)) == CallIds(Calls(records)) by {
        forall i | 0 <= i < |records|
          ensures ResultIds(Results(records))[i] == CallIds(Calls(records))[i]
        {
          assert records[i] in records;
        }
      }
      assert CallIds(Calls(records)) <= CallIds(b.calls);
      assert |ResultIds(Results(records))| == |b.calls| <==> Uninterrupted(turn);
    }
  }

  predicate AllPaired(log: seq<TurnRecord>, played: seq<Played>) {
    |log| == |played| && forall i :: 0 <= i < |log| ==> Paired(log[i], played[i].turn)
  }

  lemma AllPairedSnoc(log: seq<TurnRecord>, played: seq<Played>, r: TurnRecord)
    requires played != [] && AllPaired(log, played[..|played| - 1]) && Paired(r, played[|played| - 1].turn)
    ensures AllPaired(log + [r], played)
  {
    assert forall i :: 0 <= i < |log| ==> played[..|played| - 1][i] == played[i];
  }

  /** Over whole runs every reply is followed by results for a prefix of its calls, in call order: for
      some of them if there are any, for all of them exactly if no abort was seen between two of them, and
      for none if the reply failed. */
  lemma {:induction false} CallsArePaired(s0: LoopState, mode: Mode, played: seq<Played>)
    requires LegalRun(s0, mode, played) && s0.log == []
    ensures AllPaired(Run(s0, mode, played).log, played)
  {
    if played != [] {
      var n := |played| - 1;
      var s := Run(s0, mode, played[..n]);
      CallsArePaired(s0, mode, played[..n]);
      RecordIsPaired(s, played[n].turn);
      AllPairedSnoc(s.log, played, RecordOf(s, played[n].turn));
      TakeTurnFields(s, played[n].turn, mode, played[n].weave);
    }
  }

  // ---------------------------------------------------------------- the host between turns

  lemma {:induction false} FoldPairs(h: State, messages: seq<AgentMessage>)
    requires h.streamingMessage.None?
    ensures Fold(h, Pairs(messages)) == h.(messages := h.messages + messages)
  {
    if messages == [] {
      assert h.messages + [] == h.messages;
    } else {
      var n := |messages| - 1;
      FoldPairs(h, messages[..n]);
      FoldConcat(h, Pairs(messages[..n]), [MessageStart(messages[n]), MessageEnd(messages[n])]);
      FoldTwo(h.(messages := h.messages + messages[..n]), MessageStart(messages[n]), MessageEnd(messages[n]));
      assert h.messages + messages[..n] + [messages[n]] == h.messages + messages;
    }
  }

  lemma {:induction false} FoldShown(h: State, s: Stream, k: nat)
    requires k <= |s.events|
    ensures var t := Fold(h, s.Shown(k));
            t == h.(streamingMessage := t.streamingMessage)
  {
    if k > 0 {
      FoldShown(h, s, k - 1);
      match s.events[k - 1]
      case Begin(p) =>
        FoldSnoc(h, s.Shown(k - 1), MessageStart(Assistant(p)));
      case Delta(p) =>
        if s.Slots(k - 1) != [] {
          FoldSnoc(h, s.Shown(k - 1), MessageUpdate(Assistant(p)));
        } else {
          assert s.Shown(k) == s.Shown(k - 1);
        }
      case Terminal =>
        assert s.Shown(k) == s.Shown(k - 1);
    }
  }

  lemma FoldStream(h: State, s: Stream)
    ensures Fold(h, s.Trace()) == h.(messages := h.messages + [Assistant(s.result)], streamingMessage := None)
  {
    var final := Assistant(s.result);
    var shown := s.Shown(s.Length());
    FoldShown(h, s, s.Length());
    if s.Slots(s.Length()) == [] {
      FoldSnoc(h, shown, MessageStart(final));
      FoldSnoc(h, shown + [MessageStart(final)], MessageEnd(final));
    } else {
      assert shown + [] == shown;
      FoldSnoc(h, shown, MessageEnd(final));
    }
  }

  /** Nothing is open and no call is pending. */
  predicate IsClear(h: State) {
    h.streamingMessage.None? && h.pendingToolCalls == {}
  }

  lemma FoldOpening(h: State, first: bool, pending: seq<AgentMessage>)
    requires IsClear(h)
    ensures IsClear(Fold(h, Opening(first, pending)))
  {
    var start: seq<Event> := if first then [] else [TurnStart];
    FoldConcat(h, start, Pairs(pending));
    if !first {
      FoldOne(h, TurnStart);
    }
    FoldPairs(h, pending);
  }

  lemma FoldTools(h: State, s: LoopState, mode: Mode, p: Played)
    requires IsClear(h) && LegalTurn(s, mode, p)
    ensures IsClear(Fold(h, ToolTrace(TurnBatch(s, p.turn), p.turn, mode, p.weave)))
  {
    if ServesTools(TurnBatch(s, p.turn), p.turn) {
      ScheduleDoesNotMatter(h, TurnBatch(s, p.turn), mode, p.weave);
    }
  }

  lemma FoldTurn(h: State, s: LoopState, mode: Mode, p: Played)
    requires IsClear(h) && LegalTurn(s, mode, p)
    ensures IsClear(Fold(h, TurnTrace(s, p.turn, mode, p.weave)))
  {
    var b, turn := TurnBatch(s, p.turn), p.turn;
    var opening, shown, tools := Opening(s.first, s.pending), turn.stream.Trace(), ToolTrace(b, turn, mode, p.weave);
    var end := TurnEnd(Assistant(turn.stream.result), TurnResults(b, turn));
    FoldConcat(h, opening + shown + tools, [end]);
    FoldConcat(h, opening + shown, tools);
    FoldConcat(h, opening, shown);
    FoldOpening(h, s.first, s.pending);
    FoldStream(Fold(h, opening), turn.stream);
    FoldTools(Fold(h, opening + shown), s, mode, p);
    FoldOne(Fold(h, opening + shown + tools), end);
  }

  /** At every turn boundary the host is clear, even when tool call ids repeat. */
  lemma {:induction false} HostIsClearBetweenTurns(h: State, context: seq<AgentMessage>, tools: seq<Tool>,
                                                   prompts: seq<AgentMessage>, poll: seq<AgentMessage>, mode: Mode,
                                                   played: seq<Played>)
    requires IsClear(h) && LegalRun(Start(context, tools, prompts, poll), mode, played)
    ensures IsClear(Fold(h, Run(Start(context, tools, prompts, poll), mode, played).trace))
  {
    var s0 := Start(context, tools, prompts, poll);
    if played == [] {
      FoldConcat(h, [AgentStart, TurnStart], Pairs(prompts));
      FoldTwo(h, AgentStart, TurnStart);
      FoldPairs(h, prompts);
    } else {
      var n := |played| - 1;
      var s := Run(s0, mode, played[..n]);
      var events := TurnTrace(s, played[n].turn, mode, played[n].weave);
      var end := AgentEnd(Run(s0, mode, played).newMessages);
      HostIsClearBetweenTurns(h, context, tools, prompts, poll, mode, played[..n]);
      TakeTurnFields(s, played[n].turn, mode, played[n].weave);
      FoldConcat(h, s.trace, events);
      FoldTurn(Fold(h, s.trace), s, mode, played[n]);
      FoldSnoc(h, s.trace + events, end);
    }
  }
}
