/** The two poll functions a run gets from the agent: they drain the agent's queues, into which users
    go on putting messages while the run lasts. */
module Polling {
  import opened Messages
  import opened Queues

  /** What users do to a queue. Only polls drain. */
  type Change = op: Operation | !op.Drain? witness Clear

  datatype Arrival = ToSteering(change: Change) | ToFollowUp(change: Change)

  /** The queues as a run polls them, and whether its first steering poll is to find nothing. */
  datatype Feed = Feed(steering: Queue, followUp: Queue, skipInitialSteeringPoll: bool) {

    function ReceiveOne(arrival: Arrival): Feed {
      match arrival
      case ToSteering(change) => this.(steering := Apply(steering, change))
      case ToFollowUp(change) => this.(followUp := Apply(followUp, change))
    }

    /** What users do between two polls. */
    function Receive(arrivals: seq<Arrival>): Feed {
      if arrivals == [] then this
      else Receive(arrivals[..|arrivals| - 1]).ReceiveOne(arrivals[|arrivals| - 1])
    }

    function SteeringAnswer(): seq<AgentMessage> {
      if skipInitialSteeringPoll then [] else Drained(steering.mode, steering.messages)
    }

    function PollSteering(): Feed {
      if skipInitialSteeringPoll then this.(skipInitialSteeringPoll := false)
      else this.(steering := Apply(steering, Drain))
    }

    function FollowUpAnswer(): seq<AgentMessage> {
      Drained(followUp.mode, followUp.messages)
    }

    function PollFollowUp(): Feed {
      this.(followUp := Apply(followUp, Drain))
    }
  }

  /** The configuration of one run, as far as its polls go. */
  class LoopConfig {
    const steeringQueue: PendingMessageQueue
    const followUpQueue: PendingMessageQueue
    var skipInitialSteeringPoll: bool

    ghost predicate Valid() {
      steeringQueue != followUpQueue
    }

    ghost function Value(): Feed
      reads this, steeringQueue, followUpQueue
    {
      Feed(steeringQueue.Value(), followUpQueue.Value(), skipInitialSteeringPoll)
    }

    constructor (steeringQueue: PendingMessageQueue, followUpQueue: PendingMessageQueue, skipInitialSteeringPoll: bool)
      requires steeringQueue != followUpQueue
      ensures Valid() && this.steeringQueue == steeringQueue && this.followUpQueue == followUpQueue
      ensures this.skipInitialSteeringPoll == skipInitialSteeringPoll
    {
      this.steeringQueue, this.followUpQueue := steeringQueue, followUpQueue;
      this.skipInitialSteeringPoll := skipInitialSteeringPoll;
    }

    method GetSteeringMessages() returns (messages: seq<AgentMessage>)
      requires Valid()
      modifies this, steeringQueue
      ensures messages == old(Value()).SteeringAnswer() && Value() == old(Value()).PollSteering()
    {
      if skipInitialSteeringPoll {
        skipInitialSteeringPoll := false;
        return [];
      }
      messages := steeringQueue.DrainMessages();
    }

    method GetFollowUpMessages() returns (messages: seq<AgentMessage>)
      requires Valid()
      modifies followUpQueue
      ensures messages == old(Value()).FollowUpAnswer() && Value() == old(Value()).PollFollowUp()
    {
      messages := followUpQueue.DrainMessages();
    }

    /** The users' side: `steer()`, `followUp()`, mode switches and clearing while the run is at work. */
    method Receive(arrivals: seq<Arrival>)
      requires Valid()
      modifies steeringQueue, followUpQueue
      ensures Value() == old(Value()).Receive(arrivals)
    {
      for k := 0 to |arrivals|
        invariant Value() == old(Value()).Receive(arrivals[..k])
      {
        match arrivals[k] {
          case ToSteering(change) => steeringQueue.Change(change);
          case ToFollowUp(change) => followUpQueue.Change(change);
        }
        assert arrivals[..k + 1][..k] == arrivals[..k];
      }
      assert arrivals[..|arrivals|] == arrivals;
    }
  }
}
