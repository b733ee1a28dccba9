/**
  QueueWorker (worker.py) as an object whose fields the start-up code, the
  watcher and the main loop update in place. Each method is proved against
  the state machine of module Reconfig, so the properties proved there hold
  of the object.
*/
module Worker {
  import opened Wrappers
  import opened Broker
  import opened Messages
  import opened Reconfig

  /** How run() ends: quit() at start-up, an exception out of the loop, or not
      within the events given. */
  datatype RunResult = StartupFailed | Stopped(stop: Stop)

  class QueueWorker {
    /** The loaded classifier (self.model). */
    const predict: Predictor
    /** The channel opened on the broker connection. */
    const channel: Channel
    /** GLOBAL_CONFIG['curr_queue']: the desired queue. */
    var currQueue: string
    /** GLOBAL_CONFIG['_curr_queue']: the queue the consumer was opened on, None before the first. */
    var subscribed: Option<string>
    /** Whether run()'s local `consumer` holds a consumer. */
    var hasConsumer: bool

    /** The object as a value of the state machine. */
    ghost function AsState(): State
      reads this, channel
    {
      State(currQueue, subscribed, hasConsumer, channel.ops)
    }

    ghost predicate Valid()
      reads this, channel
    {
      Inv(AsState())
    }

    constructor (predict: Predictor)
      ensures this.predict == predict && fresh(channel)
      ensures channel.ops == [] && subscribed == None && !hasConsumer
    {
      this.predict := predict;
      channel := new Channel();
      currQueue := "";
      subscribed := None;
      hasConsumer := false;
    }

    /** The initialisation part of run(): ok is false where the source calls quit(). */
    method Start(configured: string) returns (ok: bool)
      requires channel.ops == []
      modifies this, channel
      ensures ok <==> configured in AllowedQueues
      ensures ok ==> Startup(configured) == Some(AsState()) && Valid()
      ensures !ok ==> channel.ops == []
    {
      subscribed := None;
      currQueue := configured;
      if configured !in AllowedQueues {
        return false;
      }
      var i := 0;
      while i < |AllowedQueues|
        invariant 0 <= i <= |AllowedQueues|
        invariant currQueue == configured && subscribed == None
        invariant |channel.ops| == i
        invariant forall k :: 0 <= k < i ==> channel.ops[k] == Declare(AllowedQueues[k])
      {
        channel.QueueDeclare(AllowedQueues[i]);
        i := i + 1;
      }
      assert channel.ops == Declarations(AllowedQueues);
      hasConsumer := false;
      ok := true;
    }

    /** One iteration of change_queue, with the value read from the config file. */
    method ChangeQueue(configured: string) returns (report: TickReport)
      modifies this
      ensures Ticked(report, AsState()) == WatcherTick(old(AsState()), configured)
      ensures old(Valid()) ==> Valid()
    {
      if configured !in AllowedQueues {
        return Rejected;
      }
      if currQueue != configured {
        currQueue := configured;
        return Changed;
      }
      return Unchanged;
    }

    /** reset_consumer: open a consumer on the given queue. */
    method ResetConsumer(queue: string)
      modifies this, channel
      ensures channel.ops == old(channel.ops) + [Op.Consume(queue)] && hasConsumer
      ensures currQueue == old(currQueue) && subscribed == old(subscribed)
    {
      channel.Consume(queue);
      hasConsumer := true;
    }

    /** process_message for a delivery read from `queue`. */
    method ProcessMessage(tag: nat, body: Body, queue: string) returns (outcome: Outcome)
      modifies channel
      ensures outcome == Process(tag, body, queue, predict).outcome
      ensures channel.ops == old(channel.ops) + Process(tag, body, queue, predict).ops
    {
      var index, features;
      match body {
        case StructureError =>
          return Dropped(WrongStructure);
        case SyntaxError =>
          return Dropped(JsonSyntax);
        case OtherError =>
          return Raised(UnhandledParseError);
        case Decoded(i, f) =>
          index, features := i, f;
      }
      var prediction := predict(features);
      if prediction.PredictorError? {
        return Raised(PredictorFailed);
      }
      channel.BasicAck(tag);
      outcome := Scored(queue, index, prediction.p);
    }

    /** One iteration of the while loop of run(), with the result of next(consumer). */
    method Iterate(poll: Poll) returns (outcome: StepOutcome)
      modifies this, channel
      ensures Stepped(AsState(), outcome) == Step(old(AsState()), poll, predict)
      ensures old(Valid()) ==> Valid()
    {
      ghost var s := AsState();
      if subscribed != Some(currQueue) {
        if hasConsumer {
          channel.Cancel();
        }
        ResetConsumer(currQueue);
        subscribed := Some(currQueue);
      }
      assert AsState() == Resync(s);
      match poll {
        case Timeout =>
          outcome := Idle;
        case Delivery(tag, body) =>
          var result := ProcessMessage(tag, body, currQueue);
          outcome := Handled(result);
      }
      if Inv(s) {
        StepKeepsInv(s, poll, predict);
      }
    }

    /** run(): start up, then take the events in order until one is fatal. */
    method Run(configured: string, events: seq<Event>) returns (r: RunResult)
      requires channel.ops == []
      modifies this, channel
      ensures r == StartupFailed <==> configured !in AllowedQueues
      ensures r == StartupFailed ==> channel.ops == []
      ensures r.Stopped? ==>
                Valid() &&
                Finished(AsState(), r.stop) == RunFrom(Startup(configured).value, events, predict)
    {
      var ok := Start(configured);
      if !ok {
        return StartupFailed;
      }
      ghost var s0 := AsState();
      var i := 0;
      while i < |events|
        invariant 0 <= i <= |events|
        invariant Valid()
        invariant RunFrom(AsState(), events[i..], predict) == RunFrom(s0, events, predict)
        decreases |events| - i
      {
        assert events[i..][1..] == events[i + 1..];
        match events[i] {
          case WatcherTicked(name) =>
            var _ := ChangeQueue(name);
          case LoopTicked(poll) =>
            var outcome := Iterate(poll);
            if outcome.Handled? && outcome.result.Raised? {
              return Stopped(Crashed(outcome.result.fault));
            }
        }
        i := i + 1;
      }
      r := Stopped(StillRunning);
    }
  }
}
