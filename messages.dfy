/**
  Message processing: what the worker does with one delivery taken from its
  consumer (worker.py, process_message).
*/
module Messages {
  import opened Broker

  /** What decoding a delivery body yields: json.loads on the body, then
      data['features'] and int(data['index']), in that order. */
  datatype Body =
    | Decoded(index: int, features: seq<real>)
      // IndexError or KeyError while reading the two fields (a missing key)
    | StructureError
      // json.decoder.JSONDecodeError from json.loads
    | SyntaxError
      // any other exception raised while decoding: ValueError or TypeError from
      // int(), a payload that is a JSON array, string or number, a ragged
      // 'features' list that np.array rejects with ValueError, bytes that are
      // not valid UTF-8
    | OtherError

  /** One result of next(consumer): the inactivity tick (None, None, None) or a delivery. */
  datatype Poll = Timeout | Delivery(tag: nat, body: Body)

  /** Result of self.model.predict(features)[0]: a class 1 probability, or an exception. */
  datatype Prediction = Probability(p: real) | PredictorError

  /** The loaded classifier, as seen from the worker. */
  type Predictor = seq<real> -> Prediction

  datatype DropReason = WrongStructure | JsonSyntax

  /** Exceptions that leave process_message and stop the worker. */
  datatype Fault = PredictorFailed | UnhandledParseError

  /** How process_message ends: it logs a probability and acks, it drops the
      message with a warning, or it re-raises. */
  datatype Outcome =
    | Scored(queue: string, index: int, probability: real)
    | Dropped(reason: DropReason)
    | Raised(fault: Fault)

  /** The outcome together with the channel calls it made. */
  datatype Processed = Processed(outcome: Outcome, ops: seq<Op>)

  /** process_message for a delivery with the given tag and decoded body, read from `queue`. */
  function Process(tag: nat, body: Body, queue: string, predict: Predictor): (r: Processed)
    // the three outcomes are told apart by the log: only a scored message is acked, once
    ensures r.ops == (if r.outcome.Scored? then [Ack(tag)] else [])
    // only a missing field or a JSON syntax error is a dropped poison message
    ensures r.outcome.Dropped? <==> body.StructureError? || body.SyntaxError?
    ensures r.outcome == Dropped(JsonSyntax) <==> body.SyntaxError?
    // every other decoding error, and every predictor error, is fatal
    ensures r.outcome.Raised? <==>
              body.OtherError? || (body.Decoded? && predict(body.features).PredictorError?)
    ensures r.outcome == Raised(PredictorFailed) <==>
              body.Decoded? && predict(body.features).PredictorError?
    // a scored message reports the queue, its index and the predicted probability
    ensures r.outcome.Scored? ==>
              body.Decoded? && predict(body.features).Probability? &&
              r.outcome == Scored(queue, body.index, predict(body.features).p)
  {
    match body
    case StructureError => Processed(Dropped(WrongStructure), [])
    case SyntaxError => Processed(Dropped(JsonSyntax), [])
    case OtherError => Processed(Raised(UnhandledParseError), [])
    case Decoded(index, features) =>
      match predict(features)
      case PredictorError => Processed(Raised(PredictorFailed), [])
      case Probability(p) => Processed(Scored(queue, index, p), [Ack(tag)])
  }
}
