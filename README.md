# QueueWorker: a Dafny model of the reconfigurable consumer

The worker (`worker.py`, class `QueueWorker`) consumes feature-vector
messages from one of the allowed RabbitMQ queues (`queue_in_1`,
`queue_in_2`), scores each with a classifier and acknowledges it. A watcher
thread re-reads the configured `current_queue` and stores it as the desired
queue (`GLOBAL_CONFIG['curr_queue']`). The main loop compares it with the
queue it is subscribed to (`GLOBAL_CONFIG['_curr_queue']`). When they differ
it cancels the old consumer, if one exists, and opens a new one. It then
polls the consumer and passes every delivery to `process_message`.

The project models that engine in five modules:

- `Wrappers` (`wrappers.dfy`): `Option`.
- `Broker` (`broker.dfy`): the channel calls as `Op` values (`Declare`,
  `Consume`, `Cancel`, `Ack`). A `Channel` class records every call in a
  ghost log. This module also has the summaries of a log (live consumer
  count, current subscription, number of consumes and cancels) and lemmas
  about disciplined logs.
- `Messages` (`messages.dfy`): the decoded body of a delivery, the predictor
  and `Process`. `Process` is `process_message`; its contract separates its
  three outcomes.
- `Reconfig` (`reconfig.dfy`): the worker as a state machine on values:
  start-up, one watcher tick, one main-loop iteration and whole runs. Each
  run is a sequence of interleaved watcher and loop events. `Inv` is the
  invariant that every reachable state keeps. The lemmas here give the
  properties of runs.
- `Worker` (`worker.dfy`): class `QueueWorker`. Its fields are the desired
  queue, the subscribed queue, whether a consumer exists, the channel and
  the predictor. Each method updates them in place as the source does. The
  `ensures` of `Start`, `ChangeQueue`, `Iterate` and `Run` equate the new
  state with `Reconfig.Startup`, `Reconfig.WatcherTick`, `Reconfig.Step` and
  `Reconfig.RunFrom` of the old state. `ProcessMessage` is equated with
  `Messages.Process`. `ResetConsumer` and the constructor state their
  effect on the fields directly. Through these, the lemmas proved in
  `Reconfig` carry over to the object.

Inputs the model takes as parameters instead of reading them:

- the value of `current_queue` read from the config file (a string);
- the result of `next(consumer)` (`Timeout` for `(None, None, None)`, or a
  delivery with its tag and decoded body);
- the classifier, as a total function that returns a probability or an
  error.

The watcher thread and the main loop are atomic events that may fire in
any order.

How the code behaves in two respects the model keeps:

- The desired queue is one dictionary entry shared by the watcher thread
  and the loop. The watcher writes it and the loop reads it; there is no
  change-event channel.
- Only `IndexError`/`KeyError` and `JSONDecodeError` drop a message
  (worker.py:92-97). Every other decoding failure escapes `process_message`
  and ends `run` through worker.py:153-155. Examples:
  - `ValueError` or `TypeError` from `int(data['index'])`;
  - a payload that is a JSON array, string or number;
  - a ragged `features` list, which `np.array` rejects with `ValueError` on
    NumPy 1.24 or later;
  - a body that is not valid UTF-8, which raises `UnicodeDecodeError` (not
    a `JSONDecodeError`).
  The model makes all of these the fatal `OtherError`.

## Model

| member | source | states |
|---|---|---|
| `Broker.NoConsumeWithoutCancel` | worker.py:134-138 | in a disciplined channel log, any two consume calls have a cancel between them: never two live subscriptions |
| `Broker.CancelOnlyWhenLive` | worker.py:135-136 | in a disciplined log, every cancel is issued while exactly one consumer is live |
| `Broker.Channel.QueueDeclare` | worker.py:124-125 | `channel.queue_declare` appends `Declare(q)` to the channel's log |
| `Broker.Channel.Consume` | worker.py:80-84 | `channel.consume` appends `Consume(q)` to the log |
| `Broker.Channel.Cancel` | worker.py:136 | `channel.cancel` appends `Cancel` to the log |
| `Broker.Channel.BasicAck` | worker.py:109 | `channel.basic_ack` appends `Ack(tag)` to the log |
| `Messages.Process` | worker.py:86-110 | a missing field or a JSON syntax error drops the message, and nothing else does; any other decoding error or a predictor error is raised, and nothing else is; a scored message reports queue, index and probability; the log gains exactly `[Ack(tag)]` when the message is scored and nothing otherwise |
| `Reconfig.Startup` | worker.py:117-125 | start-up succeeds iff the configured queue is allowed (otherwise `quit`); on success the desired queue is that name, no queue is subscribed, no consumer exists, every allowed queue has been declared, and the invariant holds |
| `Reconfig.WatcherTick` | worker.py:59-69 | a name outside `CONFIG_ALLOWED_QUEUES` is rejected and changes nothing; an allowed name becomes the desired queue; "Changing queue..." is reported iff the name is allowed and differs; the watcher never touches the channel or the subscription, and it keeps the invariant |
| `Reconfig.TickIdempotent` | worker.py:67-69 | repeating a watcher tick with the same value changes nothing further and reports no change |
| `Reconfig.RejectedTicksChangeNothing` | worker.py:59-65 | any number of watcher ticks that read unallowed names leave the whole state exactly as it was |
| `Reconfig.Resync` | worker.py:134-138 | afterwards the subscribed queue is the desired queue; when they already matched nothing changes; otherwise the log gains `Cancel` only if a consumer existed, then `Consume(curr_queue)` |
| `Reconfig.ResyncKeepsInv` | worker.py:134-138 | the cancel-then-consume sequence keeps the invariant: at most one live consumer, on the subscribed queue |
| `Reconfig.FirstIterationCancelsNothing` | worker.py:129-138 | the first iteration after start-up opens a consumer on the configured queue and issues no cancel |
| `Reconfig.SteadyIterationKeepsConsumer` | worker.py:134-151 | when the subscription already matches, an iteration opens and cancels nothing; it appends at most the ack of its delivery |
| `Reconfig.Step` | worker.py:132-151 | after an iteration the worker is subscribed to the desired queue and the log has only grown; the `(None, None, None)` tick processes and acks nothing; a delivery's outcome and log entries are those of `process_message` on the desired queue, and the consumer is the one left by the resubscription |
| `Reconfig.ScoredUnderSubscribedQueue` | worker.py:138-150 | a scored delivery is reported under the queue the worker is subscribed to |
| `Reconfig.StepKeepsInv` | worker.py:132-151 | a loop iteration keeps the invariant |
| `Reconfig.DroppedMessageKeepsRunning` | worker.py:92-97 | a delivery with a missing field or a JSON syntax error adds nothing to the log past the resubscription, and the loop goes on with the next event |
| `Reconfig.RunFrom` | worker.py:132-155 | over any sequence of events the channel log only grows (calls are never retracted) |
| `Reconfig.RaisedStopsRun` | worker.py:99-104 | a delivery whose processing raises ends the run at once, in the state after that iteration, with that fault; later events are not taken |
| `Reconfig.HandledKeepsRunning` | worker.py:132-151 | a watcher tick, an inactivity tick or a delivery that does not raise leaves the loop running: the run goes on with the next event from the state after that step |
| `Reconfig.RunKeepsInv` | worker.py:117-151 | every state reached from a state that satisfies the invariant satisfies it |
| `Reconfig.DeclaredBeforeConsume` | worker.py:124-137 | under the invariant, every allowed queue is declared before any consume call in the log |
| `Reconfig.RunProperties` | worker.py:117-151 | in every run that starts: the desired queue is always allowed; every allowed queue is declared before each consume; no two consume calls lack a cancel between them |
| `Reconfig.ChangeTakesEffect` | worker.py:134-138 | a watcher tick with an allowed queue followed by one loop iteration leaves the worker subscribed to that queue, and a delivery scored in that iteration is reported under that queue |
| `Reconfig.ChurnABA` | worker.py:134-142 | desired queues A, B, A with only inactivity ticks give the log `Consume(A), Cancel, Consume(B), Cancel, Consume(A)` after the declarations: three consumes and two cancels, ending subscribed to A |
| `Worker.QueueWorker.constructor` | worker.py:11-52 | a new worker holds the given predictor, a fresh channel with an empty log, no subscription and no consumer |
| `Worker.QueueWorker.Start` | worker.py:112-125 | fails exactly when the configured queue is not allowed, having declared nothing; otherwise yields the state of `Reconfig.Startup` with its invariant |
| `Worker.QueueWorker.ChangeQueue` | worker.py:54-69 | the new state and report are those of `Reconfig.WatcherTick` on the old state; keeps the invariant |
| `Worker.QueueWorker.ResetConsumer` | worker.py:79-84 | appends one consume call on the queue and records that a consumer exists |
| `Worker.QueueWorker.ProcessMessage` | worker.py:86-110 | returns the outcome of `Messages.Process` and appends exactly its channel calls |
| `Worker.QueueWorker.Iterate` | worker.py:132-151 | the new state and outcome are those of `Reconfig.Step` on the old state; keeps the invariant |
| `Worker.QueueWorker.Run` | worker.py:112-155 | fails at start-up iff the configured queue is not allowed, having declared nothing; otherwise ends in the state and stop reason of `Reconfig.RunFrom` from the start-up state, with the invariant |

## Left out

- Connection setup and its retries (worker.py:115-116), the generator inside `channel.consume`, and `connection.sleep(1)` before the ack (worker.py:108). These are network I/O; only the channel calls appear in the log.
- The channel is created in the constructor, not after the start-up check (worker.py:122). Nothing is called on it before that check passes, so the log is the same.
- The real thread and the unsynchronised sharing of `GLOBAL_CONFIG` (worker.py:127-128). The watcher and the loop are atomic events in any order.
- Reconfig.ScoredUnderSubscribedQueue: holds because a loop iteration is atomic in the model. In the threaded source, `process_message` receives `curr_queue` as it is read at worker.py:150. A watcher tick between worker.py:138 and worker.py:150 would report a delivery from the old consumer under the new queue's name. In that window the race affects only the log line; the window at worker.py:137-138 is covered on the `Reconfig.ChangeTakesEffect` line below.
- Reconfig.ChangeTakesEffect: holds because a loop iteration is atomic in the model. In the threaded source, the loop reads `curr_queue` twice, at worker.py:137 and worker.py:138. A watcher write between those two reads opens the consumer on the old queue but records the new name in `_curr_queue`. The loop then sees the two as equal, and the worker stays on the old queue until a different name is configured. The model's single atomic step cannot interleave there.
- Process exit after a crash. After `run` re-raises (worker.py:155), the watcher thread started at worker.py:127 is not a daemon and loops forever, so the process stays alive with its main loop gone. The model's `Crashed` stop means only that the main loop has ended; the watcher's further ticks after it are not modelled.
- Reading the config file (worker.py:71-77). The value read is an input string. A failed read (missing file or key) is not modelled. It raises `KeyError`: at start-up that stops `run`, and in the watcher it ends the thread, so the desired queue stops changing.
- Logging setup and log messages (worker.py:30-46). Warnings and info lines appear only as `TickReport` values and `Outcome` values.
- `quit(...)` (worker.py:120) is the `StartupFailed` result.
- Loading the classifier in `__init__` (worker.py:48-52) and the predictor itself (`code_challenge_base_predictor.py`: shape check and `predict_proba`). The predictor is a total function that returns a probability or an error. The probability is a `real`, not a float, and is not constrained to [0, 1].
- Decoding is an input: the body arrives already classified as decoded, structure error, JSON syntax error or other error. `features` is a flat `seq<real>`. A rank-2 `features` such as `[[0.1, 0.2, 0.3]]` passes the predictor's rank check (code_challenge_base_predictor.py:11-13). It is then scored with the probability of row 0 (worker.py:101) and acked. In the model it is a `Decoded` body that the predictor may score. On NumPy 1.24 or later, a ragged list makes `np.array` raise `ValueError` at worker.py:90, so it is `OtherError`. Older NumPy builds an object array there with a warning, and the failure then comes from `self.model.predict` at worker.py:101, so it is a predictor error (`PredictorFailed`). The model takes the body's classification as an input, so both readings fit it. `index` is an `int` after `int()`.
- Exceptions from the broker channel inside the loop (worker.py:153-155) are not modelled. The only fatal outcomes are those that leave `process_message`.
- Timing: the inactivity timeout (worker.py:24), and the `CONFIG_CHECK_FOR_CONFIG_PERIOD` sleep the watcher takes before each read (worker.py:56). A tick is an event with no time attached; the model picks up a change on the next loop event after the tick (`Reconfig.ChangeTakesEffect`).
- The `__main__` argument parsing (worker.py:158-185) and `init.py`, a script that seeds the queues.
