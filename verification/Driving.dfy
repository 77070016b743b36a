/** A run that is fed by the agent's queues: every poll of every turn is a drain of the queue as users
    have left it by then. */
module Driving {
  import opened Options
  import opened Messages
  import opened ToolBatch
  import opened Streaming
  import opened LoopSpec
  import opened Polling

  /** The outside world during one turn, with what users do before each poll instead of its answer. */
  datatype Round = Round(
    stream: Stream,
    fate: nat -> Fate,
    snapshot: Option<Snapshot>,
    stop: bool,
    beforeSteering: seq<Arrival>,
    beforeFollowUp: seq<Arrival>)

  function AsTurn(r: Round, steering: seq<AgentMessage>, followUp: seq<AgentMessage>): Turn {
    Turn(r.stream, r.fate, r.snapshot, r.stop, steering, followUp)
  }

  /** The run ends with this turn, before any queue is polled. */
  predicate Stops(r: Round) {
    r.stop || Failed(r.stream.result)
  }

  predicate More(s: LoopState, r: Round) {
    var turn := AsTurn(r, [], []);
    MoreToolCalls(TurnBatch(s, turn), turn)
  }

  /** The turn as the queues answer its polls. */
  function Asked(f: Feed, r: Round, more: bool): Turn {
    var f1 := f.Receive(r.beforeSteering);
    if Stops(r) then AsTurn(r, [], [])
    else if more || f1.SteeringAnswer() != [] then AsTurn(r, f1.SteeringAnswer(), [])
    else AsTurn(r, [], f1.PollSteering().Receive(r.beforeFollowUp).FollowUpAnswer())
  }

  /** The queues after the polls of that turn. */
  function Fed(f: Feed, r: Round, more: bool): Feed {
    var f1 := f.Receive(r.beforeSteering);
    if Stops(r) then f1
    else if more || f1.SteeringAnswer() != [] then f1.PollSteering()
    else f1.PollSteering().Receive(r.beforeFollowUp).PollFollowUp()
  }

  /** Everything a run starts from: its state and the queues after the initial poll, and the rounds the
      outside world has to offer. */
  datatype Drive = Drive(start: LoopState, feed: Feed, mode: Mode, script: seq<Round>) {

    function Loop(played: seq<Played>): LoopState {
      Run(start, mode, played)
    }

    /** The queues after the turns in `played`. */
    function Feeds(played: seq<Played>): Feed
      requires |played| <= |script|
    {
      if played == [] then feed
      else
        var n := |played| - 1;
        Fed(Feeds(played[..n]), script[n], More(Loop(played[..n]), script[n]))
    }

    /** `played` is a legal run over the first rounds of the script, each turn answered by the queues. */
    ghost predicate Takes(played: seq<Played>) {
      && |played| <= |script|
      && LegalRun(start, mode, played)
      && (played != [] ==>
            var n := |played| - 1;
            && Takes(played[..n])
            && played[n].turn == Asked(Feeds(played[..n]), script[n], More(Loop(played[..n]), script[n])))
    }

    lemma TakesNext(played: seq<Played>, weave: seq<Event>)
      requires Takes(played) && |played| < |script| && !Loop(played).done
      requires var r := script[|played|];
               LegalTurn(Loop(played), mode, Played(Asked(Feeds(played), r, More(Loop(played), r)), weave))
      ensures var s, f, r := Loop(played), Feeds(played), script[|played|];
              var turn := Asked(f, r, More(s, r));
              && Takes(played + [Played(turn, weave)])
              && Loop(played + [Played(turn, weave)]) == TakeTurn(s, turn, mode, weave)
              && Feeds(played + [Played(turn, weave)]) == Fed(f, r, More(s, r))
    {
      var r := script[|played|];
      var p := Played(Asked(Feeds(played), r, More(Loop(played), r)), weave);
      RunSnoc(start, mode, played, p);
      assert (played + [p])[..|played|] == played;
    }
  }

  /** The last turn of a run, seen from the turns before it. */
  lemma LastRound(d: Drive, played: seq<Played>)
    requires d.Takes(played) && played != []
    ensures var n := |played| - 1;
            d.Takes(played[..n])
            && var s, f, r := d.Loop(played[..n]), d.Feeds(played[..n]), d.script[n];
               && !s.done
               && d.Loop(played) == TakeTurn(s, Asked(f, r, More(s, r)), d.mode, played[n].weave)
               && d.Feeds(played) == Fed(f, r, More(s, r))
  {
  }

  /** The start of a run: users may get in before the initial steering poll, which the queues answer. */
  function Launch(context: seq<AgentMessage>, tools: seq<Tool>, prompts: seq<AgentMessage>, feed: Feed,
                  before: seq<Arrival>, mode: Mode, script: seq<Round>): Drive
  {
    var asked := feed.Receive(before);
    Drive(Start(context, tools, prompts, asked.SteeringAnswer()), asked.PollSteering(), mode, script)
  }
}
