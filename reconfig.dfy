/**
  The reconfigurable consumption engine of QueueWorker (worker.py) as a
  state machine on values. The worker's state is the desired queue
  (GLOBAL_CONFIG['curr_queue']), the queue it is subscribed to
  (GLOBAL_CONFIG['_curr_queue']), whether a consumer exists, and the log of
  channel calls. The watcher thread and the main loop are atomic events that
  fire in any order.
*/
module Reconfig {
  import opened Wrappers
  import opened Broker
  import opened Messages

  /** CONFIG_ALLOWED_QUEUES. */
  const AllowedQueues: seq<string> := ["queue_in_1", "queue_in_2"]

  datatype State = State(curr: string, subscribed: Option<string>, consumer: bool, log: seq<Op>)

  /** One queue_declare per allowed queue, in the order of the list. */
  function Declarations(qs: seq<string>): seq<Op>
  {
    seq(|qs|, k requires 0 <= k < |qs| => Declare(qs[k]))
  }

  /** The log opens with the declaration of every allowed queue. */
  ghost predicate DeclaresFirst(log: seq<Op>)
  {
    |log| >= |AllowedQueues| &&
    forall k :: 0 <= k < |AllowedQueues| ==> log[k] == Declare(AllowedQueues[k])
  }

  /** Every consumer opened is on an allowed queue. */
  ghost predicate ConsumesAllowed(log: seq<Op>)
  {
    forall k :: 0 <= k < |log| && log[k].Consume? ==> log[k].queue in AllowedQueues
  }

  /** What holds of the worker in every state reached after a successful start. */
  ghost predicate Inv(s: State)
  {
    && s.curr in AllowedQueues
    && DeclaresFirst(s.log)
    && ConsumesAllowed(s.log)
    && Disciplined(s.log)
    && Live(s.log) == (if s.consumer then 1 else 0)
    && Subscription(s.log) == s.subscribed
    && (s.consumer <==> s.subscribed.Some?)
  }

  /** The initialisation part of run(): read the configured queue, quit when it is
      not allowed, otherwise declare every allowed queue, with no consumer yet. */
  function Startup(configured: string): (r: Option<State>)
    ensures r.Some? <==> configured in AllowedQueues
    ensures r.Some? ==> Inv(r.value)
    ensures r.Some? ==>
              r.value.curr == configured && r.value.subscribed == None && !r.value.consumer &&
              r.value.log == Declarations(AllowedQueues)
  {
    if configured in AllowedQueues then
      NoConsumerCalls(Declarations(AllowedQueues));
      Some(State(configured, None, false, Declarations(AllowedQueues)))
    else
      None
  }

  /** What one watcher tick logs: a warning, "Changing queue...", or nothing. */
  datatype TickReport = Rejected | Changed | Unchanged

  datatype Ticked = Ticked(report: TickReport, state: State)

  /** One iteration of change_queue, given the value just read from the config file. */
  function WatcherTick(s: State, configured: string): (r: Ticked)
    // the watcher never touches the channel or the subscription
    ensures r.state.log == s.log && r.state.subscribed == s.subscribed
    ensures r.state.consumer == s.consumer
    // a name outside the allowed list is rejected and changes nothing
    ensures configured !in AllowedQueues ==> r == Ticked(Rejected, s)
    // an allowed name becomes the desired queue
    ensures configured in AllowedQueues ==> r.state.curr == configured && r.report != Rejected
    ensures r.report == Changed <==> configured in AllowedQueues && configured != s.curr
    ensures Inv(s) ==> Inv(r.state)
  {
    if configured !in AllowedQueues then Ticked(Rejected, s)
    else if s.curr != configured then Ticked(Changed, s.(curr := configured))
    else Ticked(Unchanged, s)
  }

  /** The head of the main loop: when the subscribed queue differs from the desired
      one, cancel the consumer if there is one and open a new one on the desired queue. */
  function Resync(s: State): (r: State)
    ensures r.curr == s.curr && r.subscribed == Some(s.curr)
    ensures s.log <= r.log
    ensures s.subscribed == Some(s.curr) ==> r == s
    ensures s.subscribed != Some(s.curr) ==>
              r.consumer &&
              r.log == s.log + (if s.consumer then [Cancel] else []) + [Consume(s.curr)]
  {
    if s.subscribed == Some(s.curr) then s
    else
      var l := if s.consumer then s.log + [Cancel] else s.log;
      s.(log := l + [Consume(s.curr)], consumer := true, subscribed := Some(s.curr))
  }

  /** What one loop iteration did with its poll result. */
  datatype StepOutcome = Idle | Handled(result: Outcome)

  datatype Stepped = Stepped(state: State, outcome: StepOutcome)

  /** One iteration of the while loop of run(): resynchronise the consumer, take the
      next poll result, and hand a delivery to process_message on the desired queue. */
  function Step(s: State, poll: Poll, predict: Predictor): (r: Stepped)
    ensures r.state.curr == s.curr && r.state.subscribed == Some(s.curr)
    ensures s.log <= r.state.log
    // the inactivity tick processes nothing and acks nothing
    ensures poll.Timeout? ==> r == Stepped(Resync(s), Idle)
    ensures poll.Delivery? ==>
              var p := Process(poll.tag, poll.body, s.curr, predict);
              r.outcome == Handled(p.outcome) && r.state.log == Resync(s).log + p.ops &&
              r.state.consumer == Resync(s).consumer
  {
    var s1 := Resync(s);
    match poll
    case Timeout => Stepped(s1, Idle)
    case Delivery(tag, body) =>
      var p := Process(tag, body, s1.curr, predict);
      Stepped(s1.(log := s1.log + p.ops), Handled(p.outcome))
  }

  /** Something that happens after start-up: a tick of the watcher thread with the
      value it read, or an iteration of the main loop with the result of its poll. */
  datatype Event = WatcherTicked(configured: string) | LoopTicked(poll: Poll)

  /** How the main loop stops: by an exception out of process_message, or not at all
      within the events given. */
  datatype Stop = Crashed(fault: Fault) | StillRunning

  datatype Finished = Finished(state: State, stop: Stop)

  /** The events in order, from state s, until the first fatal outcome. */
  function RunFrom(s: State, events: seq<Event>, predict: Predictor): (r: Finished)
    ensures s.log <= r.state.log
    decreases |events|
  {
    if events == [] then Finished(s, StillRunning)
    else match events[0]
      case WatcherTicked(configured) =>
        RunFrom(WatcherTick(s, configured).state, events[1..], predict)
      case LoopTicked(poll) =>
        var st := Step(s, poll, predict);
        if st.outcome.Handled? && st.outcome.result.Raised? then
          Finished(st.state, Crashed(st.outcome.result.fault))
        else
          RunFrom(st.state, events[1..], predict)
  }

  // ---------------------------------------------------------------------------
  // The watcher

  /** Repeating a watcher tick with the same value changes nothing further. */
  lemma TickIdempotent(s: State, configured: string)
    ensures var t := WatcherTick(s, configured);
            WatcherTick(t.state, configured).state == t.state &&
            WatcherTick(t.state, configured).report != Changed
  {
  }

  /** Any number of watcher ticks that read a name outside the allowed list leave
      the worker exactly as it was. */
  lemma {:induction false} RejectedTicksChangeNothing(s: State, events: seq<Event>, predict: Predictor)
    requires forall k :: 0 <= k < |events| ==>
               events[k].WatcherTicked? && events[k].configured !in AllowedQueues
    ensures RunFrom(s, events, predict) == Finished(s, StillRunning)
    decreases |events|
  {
    if events != [] {
      assert events[0].WatcherTicked?;
      RejectedTicksChangeNothing(s, events[1..], predict);
    }
  }

  // ---------------------------------------------------------------------------
  // The main loop

  /** Resynchronising keeps the invariant: the cancel (when a consumer exists) takes
      the live count to zero, the new consumer takes it back to one. */
  lemma ResyncKeepsInv(s: State)
    requires Inv(s)
    ensures Inv(Resync(s))
  {
    if s.subscribed != Some(s.curr) {
      var l := if s.consumer then s.log + [Cancel] else s.log;
      if s.consumer {
        Extend(s.log, Cancel);
      }
      Extend(l, Consume(s.curr));
      assert Resync(s).log == l + [Consume(s.curr)];
    }
  }

  /** A loop iteration keeps the invariant. */
  lemma StepKeepsInv(s: State, poll: Poll, predict: Predictor)
    requires Inv(s)
    ensures Inv(Step(s, poll, predict).state)
  {
    ResyncKeepsInv(s);
    var s1 := Resync(s);
    if poll.Delivery? {
      var p := Process(poll.tag, poll.body, s1.curr, predict);
      if p.ops != [] {
        Extend(s1.log, Ack(poll.tag));
        assert s1.log + p.ops == s1.log + [Ack(poll.tag)];
      } else {
        assert s1.log + p.ops == s1.log;
      }
    }
  }

  /** The first loop iteration after start-up opens a consumer and cancels nothing. */
  lemma FirstIterationCancelsNothing(configured: string)
    requires Startup(configured).Some?
    ensures var s := Startup(configured).value;
            Resync(s).log == s.log + [Consume(configured)]
  {
  }

  /** No consumer call without a change of desired queue: when the subscription
      already matches, an iteration appends at most the ack of its delivery. */
  lemma SteadyIterationKeepsConsumer(s: State, poll: Poll, predict: Predictor)
    requires s.subscribed == Some(s.curr)
    ensures var r := Step(s, poll, predict);
            r.state.consumer == s.consumer &&
            (r.state.log == s.log || (poll.Delivery? && r.state.log == s.log + [Ack(poll.tag)]))
  {
  }

  /** A scored message is reported under the queue the worker is subscribed to. */
  lemma ScoredUnderSubscribedQueue(s: State, poll: Poll, predict: Predictor)
    requires Step(s, poll, predict).outcome.Handled?
    requires Step(s, poll, predict).outcome.result.Scored?
    ensures Step(s, poll, predict).state.subscribed ==
            Some(Step(s, poll, predict).outcome.result.queue)
  {
  }

  /** A poison message is dropped without an ack and the loop goes on with the
      next event. */
  lemma DroppedMessageKeepsRunning(s: State, tag: nat, body: Body, rest: seq<Event>, predict: Predictor)
    requires body.StructureError? || body.SyntaxError?
    ensures var events := [LoopTicked(Delivery(tag, body))] + rest;
            Step(s, Delivery(tag, body), predict).state == Resync(s) &&
            RunFrom(s, events, predict) == RunFrom(Resync(s), rest, predict)
  {
    var events := [LoopTicked(Delivery(tag, body))] + rest;
    assert events[0] == LoopTicked(Delivery(tag, body));
    assert events[1..] == rest;
    assert Resync(s).log + [] == Resync(s).log;
  }

  /** A delivery whose processing raises ends the run with its fault, in the state
      after that iteration; no later event is taken. */
  lemma RaisedStopsRun(s: State, tag: nat, body: Body, rest: seq<Event>, predict: Predictor)
    requires Process(tag, body, s.curr, predict).outcome.Raised?
    ensures RunFrom(s, [LoopTicked(Delivery(tag, body))] + rest, predict) ==
            Finished(Step(s, Delivery(tag, body), predict).state,
                     Crashed(Process(tag, body, s.curr, predict).outcome.fault))
  {
    var events := [LoopTicked(Delivery(tag, body))] + rest;
    assert events[0] == LoopTicked(Delivery(tag, body));
  }

  /** Every event that is not a raising delivery leaves the loop running: the run
      goes on with the remaining events from the state after that event. */
  lemma HandledKeepsRunning(s: State, e: Event, rest: seq<Event>, predict: Predictor)
    requires e.LoopTicked? && e.poll.Delivery? ==>
               !Process(e.poll.tag, e.poll.body, s.curr, predict).outcome.Raised?
    ensures var next := if e.WatcherTicked? then WatcherTick(s, e.configured).state
                        else Step(s, e.poll, predict).state;
            RunFrom(s, [e] + rest, predict) == RunFrom(next, rest, predict)
  {
    var events := [e] + rest;
    assert events[0] == e;
    assert events[1..] == rest;
  }

  // ---------------------------------------------------------------------------
  // Whole runs

  /** After a successful start, every reachable state satisfies the invariant. */
  lemma {:induction false} RunKeepsInv(s: State, events: seq<Event>, predict: Predictor)
    requires Inv(s)
    ensures Inv(RunFrom(s, events, predict).state)
    decreases |events|
  {
    if events != [] {
      match events[0]
      case WatcherTicked(configured) =>
        RunKeepsInv(WatcherTick(s, configured).state, events[1..], predict);
      case LoopTicked(poll) =>
        StepKeepsInv(s, poll, predict);
        RunKeepsInv(Step(s, poll, predict).state, events[1..], predict);
    }
  }

  /** Every allowed queue is declared before any consumer appears in the log. */
  lemma DeclaredBeforeConsume(s: State, j: nat, q: string)
    requires Inv(s)
    requires j < |s.log| && s.log[j].Consume? && q in AllowedQueues
    ensures exists i :: 0 <= i < j && s.log[i] == Declare(q)
  {
    var i :| 0 <= i < |AllowedQueues| && AllowedQueues[i] == q;
    assert s.log[i] == Declare(q);
  }

  /** The properties of whole runs: in any run that starts, the desired queue is
      always allowed, declarations precede consumers, and there is never more than
      one live subscription. */
  lemma RunProperties(configured: string, events: seq<Event>, predict: Predictor)
    requires configured in AllowedQueues
    ensures var f := RunFrom(Startup(configured).value, events, predict);
            f.state.curr in AllowedQueues &&
            (forall j, q :: 0 <= j < |f.state.log| && f.state.log[j].Consume? && q in AllowedQueues ==>
               exists i :: 0 <= i < j && f.state.log[i] == Declare(q)) &&
            (forall i, j :: 0 <= i < j < |f.state.log| && f.state.log[i].Consume? && f.state.log[j].Consume? ==>
               exists k :: i < k < j && f.state.log[k] == Cancel)
  {
    var f := RunFrom(Startup(configured).value, events, predict);
    RunKeepsInv(Startup(configured).value, events, predict);
    forall j, q | 0 <= j < |f.state.log| && f.state.log[j].Consume? && q in AllowedQueues
      ensures exists i :: 0 <= i < j && f.state.log[i] == Declare(q)
    {
      DeclaredBeforeConsume(f.state, j, q);
    }
    forall i, j | 0 <= i < j < |f.state.log| && f.state.log[i].Consume? && f.state.log[j].Consume?
      ensures exists k :: i < k < j && f.state.log[k] == Cancel
    {
      NoConsumeWithoutCancel(f.state.log, i, j);
    }
  }

  /** A change of configuration is picked up by the next loop iteration: after a
      watcher tick that reads an allowed queue and one iteration, the worker is
      subscribed to that queue and reports its deliveries under it. */
  lemma ChangeTakesEffect(s: State, q: string, poll: Poll, predict: Predictor)
    requires Inv(s) && q in AllowedQueues
    ensures var f := RunFrom(s, [WatcherTicked(q), LoopTicked(poll)], predict);
            f.state.curr == q && f.state.subscribed == Some(q) && Subscription(f.state.log) == Some(q)
    ensures var st := Step(WatcherTick(s, q).state, poll, predict);
            st.outcome.Handled? && st.outcome.result.Scored? ==> st.outcome.result.queue == q
  {
    var events := [WatcherTicked(q), LoopTicked(poll)];
    var t := WatcherTick(s, q).state;
    var st := Step(t, poll, predict);
    assert events[1..] == [LoopTicked(poll)];
    assert RunFrom(s, events, predict) == RunFrom(t, [LoopTicked(poll)], predict);
    assert [LoopTicked(poll)][1..] == [];
    assert RunFrom(t, [LoopTicked(poll)], predict).state == st.state;
    StepKeepsInv(t, poll, predict);
  }

  /** Desired queues A, B, A with no message in between: three consumers opened,
      two cancelled, and the worker ends subscribed to A. */
  lemma ChurnABA(a: string, b: string, predict: Predictor)
    requires a in AllowedQueues && b in AllowedQueues && a != b
    ensures var events := [LoopTicked(Timeout), WatcherTicked(b), LoopTicked(Timeout),
                           WatcherTicked(a), LoopTicked(Timeout)];
            var f := RunFrom(Startup(a).value, events, predict);
            f.stop == StillRunning &&
            f.state.subscribed == Some(a) && Subscription(f.state.log) == Some(a) &&
            f.state.log == Declarations(AllowedQueues) +
                             [Consume(a), Cancel, Consume(b), Cancel, Consume(a)] &&
            Consumes(f.state.log) == 3 && Cancels(f.state.log) == 2
  {
    var events := [LoopTicked(Timeout), WatcherTicked(b), LoopTicked(Timeout),
                   WatcherTicked(a), LoopTicked(Timeout)];
    var s0 := Startup(a).value;
    var s1 := Step(s0, Timeout, predict).state;
    var s2 := WatcherTick(s1, b).state;
    var s3 := Step(s2, Timeout, predict).state;
    var s4 := WatcherTick(s3, a).state;
    var s5 := Step(s4, Timeout, predict).state;
    assert events[1..] == [WatcherTicked(b), LoopTicked(Timeout), WatcherTicked(a), LoopTicked(Timeout)];
    assert events[1..][1..] == [LoopTicked(Timeout), WatcherTicked(a), LoopTicked(Timeout)];
    assert events[1..][1..][1..] == [WatcherTicked(a), LoopTicked(Timeout)];
    assert events[1..][1..][1..][1..] == [LoopTicked(Timeout)];
    assert events[1..][1..][1..][1..][1..] == [];
    assert RunFrom(s0, events, predict) == RunFrom(s1, events[1..], predict);
    assert RunFrom(s1, events[1..], predict) == RunFrom(s2, events[1..][1..], predict);
    assert RunFrom(s2, events[1..][1..], predict) == RunFrom(s3, events[1..][1..][1..], predict);
    assert RunFrom(s3, events[1..][1..][1..], predict) == RunFrom(s4, events[1..][1..][1..][1..], predict);
    assert RunFrom(s4, events[1..][1..][1..][1..], predict) == Finished(s5, StillRunning);
    var d := Declarations(AllowedQueues);
    assert s5.log == d + [Consume(a), Cancel, Consume(b), Cancel, Consume(a)];
    NoConsumerCalls(d);
    Extend(d, Consume(a));
    Extend(d + [Consume(a)], Cancel);
    Extend(d + [Consume(a), Cancel], Consume(b));
    Extend(d + [Consume(a), Cancel, Consume(b)], Cancel);
    Extend(d + [Consume(a), Cancel, Consume(b), Cancel], Consume(a));
    assert d + [Consume(a), Cancel, Consume(b), Cancel, Consume(a)]
        == d + [Consume(a), Cancel, Consume(b), Cancel] + [Consume(a)];
    assert d + [Consume(a), Cancel, Consume(b), Cancel]
        == d + [Consume(a), Cancel, Consume(b)] + [Cancel];
    assert d + [Consume(a), Cancel, Consume(b)] == d + [Consume(a), Cancel] + [Consume(b)];
    assert d + [Consume(a), Cancel] == d + [Consume(a)] + [Cancel];
  }
}
