/**
  The broker boundary of the worker: every call the worker makes on its
  channel is recorded as an Op, and the log of those calls is what the
  properties of the consumption engine are stated about.
*/
module Broker {
  import opened Wrappers

  /** One call on the broker channel: queue_declare, consume, cancel or basic_ack. */
  datatype Op = Declare(queue: string) | Consume(queue: string) | Cancel | Ack(tag: nat)

  /** How one call changes the number of live consumers. */
  function Delta(op: Op): int
  {
    match op
    case Consume(_) => 1
    case Cancel => -1
    case _ => 0
  }

  /** Consumers opened minus consumers cancelled, over the whole log. */
  function Live(log: seq<Op>): int
    decreases |log|
  {
    if log == [] then 0 else Live(log[..|log| - 1]) + Delta(log[|log| - 1])
  }

  /** After every call there are zero or one live consumers: no cancel without
      a consumer, and no second consumer opened on top of a live one. */
  predicate Disciplined(log: seq<Op>)
    decreases |log|
  {
    log == [] || (Disciplined(log[..|log| - 1]) && 0 <= Live(log) <= 1)
  }

  /** The queue of the consumer opened last and not cancelled since, if any. */
  function Subscription(log: seq<Op>): Option<string>
    decreases |log|
  {
    if log == [] then None
    else match log[|log| - 1]
      case Consume(q) => Some(q)
      case Cancel => None
      case _ => Subscription(log[..|log| - 1])
  }

  /** Number of consume calls in the log. */
  function Consumes(log: seq<Op>): nat
    decreases |log|
  {
    if log == [] then 0
    else Consumes(log[..|log| - 1]) + (if log[|log| - 1].Consume? then 1 else 0)
  }

  /** Number of cancel calls in the log. */
  function Cancels(log: seq<Op>): nat
    decreases |log|
  {
    if log == [] then 0
    else Cancels(log[..|log| - 1]) + (if log[|log| - 1] == Cancel then 1 else 0)
  }

  /** Appending one call moves the live count by that call's delta. */
  lemma LiveAppend(log: seq<Op>, op: Op)
    ensures Live(log + [op]) == Live(log) + Delta(op)
  {
    assert (log + [op])[..|log|] == log;
  }

  /** What appending one call does to each of the summaries above. */
  lemma Extend(log: seq<Op>, op: Op)
    ensures Live(log + [op]) == Live(log) + Delta(op)
    ensures Disciplined(log + [op]) <==> Disciplined(log) && 0 <= Live(log) + Delta(op) <= 1
    ensures Subscription(log + [op]) ==
              match op
              case Consume(q) => Some(q)
              case Cancel => None
              case _ => Subscription(log)
    ensures Consumes(log + [op]) == Consumes(log) + (if op.Consume? then 1 else 0)
    ensures Cancels(log + [op]) == Cancels(log) + (if op == Cancel then 1 else 0)
  {
    assert (log + [op])[..|log|] == log;
  }

  /** A log of declarations and acks alone has no consumer and is disciplined. */
  lemma {:induction false} NoConsumerCalls(log: seq<Op>)
    requires forall k :: 0 <= k < |log| ==> log[k].Declare? || log[k].Ack?
    ensures Live(log) == 0 && Disciplined(log) && Subscription(log) == None
    ensures Consumes(log) == 0 && Cancels(log) == 0
    decreases |log|
  {
    if log != [] {
      var front := log[..|log| - 1];
      NoConsumerCalls(front);
      assert log == front + [log[|log| - 1]];
      Extend(front, log[|log| - 1]);
    }
  }

  /** Every prefix of a disciplined log is disciplined, with 0 or 1 live consumers. */
  lemma {:induction false} DisciplinedPrefix(log: seq<Op>, n: nat)
    requires Disciplined(log) && n <= |log|
    ensures Disciplined(log[..n]) && 0 <= Live(log[..n]) <= 1
  {
    if n < |log| {
      var front := log[..|log| - 1];
      assert front[..n] == log[..n];
      DisciplinedPrefix(front, n);
    } else {
      assert log[..n] == log;
    }
  }

  /** If the live count drops between two points of the log, a cancel lies between them. */
  lemma {:induction false} CancelBetween(log: seq<Op>, a: nat, b: nat) returns (k: nat)
    requires a <= b <= |log|
    requires Live(log[..b]) < Live(log[..a])
    ensures a <= k < b && log[k] == Cancel
    decreases b
  {
    assert log[..b] == log[..b - 1] + [log[b - 1]];
    LiveAppend(log[..b - 1], log[b - 1]);
    if log[b - 1] == Cancel {
      k := b - 1;
    } else {
      k := CancelBetween(log, a, b - 1);
    }
  }

  /** At most one live subscription: between any two consume calls of a
      disciplined log there is a cancel. */
  lemma NoConsumeWithoutCancel(log: seq<Op>, i: nat, j: nat)
    requires Disciplined(log)
    requires i < j < |log| && log[i].Consume? && log[j].Consume?
    ensures exists k :: i < k < j && log[k] == Cancel
  {
    DisciplinedPrefix(log, i);
    DisciplinedPrefix(log, j + 1);
    var pre, upto := log[..i], log[..j];
    assert log[..i + 1] == pre + [log[i]];
    LiveAppend(pre, log[i]);
    assert Delta(log[i]) == 1 && Delta(log[j]) == 1;
    assert log[..j + 1] == upto + [log[j]];
    LiveAppend(upto, log[j]);
    assert Live(upto) < Live(log[..i + 1]);
    var k := CancelBetween(log, i + 1, j);
    assert i < k < j && log[k] == Cancel;
  }

  /** A cancel in a disciplined log always tears down a live consumer. */
  lemma CancelOnlyWhenLive(log: seq<Op>, k: nat)
    requires Disciplined(log)
    requires k < |log| && log[k] == Cancel
    ensures Live(log[..k]) == 1
  {
    DisciplinedPrefix(log, k);
    DisciplinedPrefix(log, k + 1);
    assert log[..k + 1] == log[..k] + [log[k]];
    LiveAppend(log[..k], log[k]);
  }

  /** The broker channel, seen through the calls made on it. */
  class Channel {
    ghost var ops: seq<Op>

    constructor ()
      ensures ops == []
    {
      ops := [];
    }

    method QueueDeclare(queue: string)
      modifies this
      ensures ops == old(ops) + [Declare(queue)]
    {
      ops := ops + [Declare(queue)];
    }

    method Consume(queue: string)
      modifies this
      ensures ops == old(ops) + [Op.Consume(queue)]
    {
      ops := ops + [Op.Consume(queue)];
    }

    method Cancel()
      modifies this
      ensures ops == old(ops) + [Op.Cancel]
    {
      ops := ops + [Op.Cancel];
    }

    method BasicAck(tag: nat)
      modifies this
      ensures ops == old(ops) + [Ack(tag)]
    {
      ops := ops + [Ack(tag)];
    }
  }
}
