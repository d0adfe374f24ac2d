/** `POST /predict` of the fraud service and its background alert. */
module FraudApi {
  import opened Wrappers
  import opened Artifacts
  import Scores

  /** An alert is raised above this probability, strictly. */
  const FraudThreshold: real := 0.7

  /** An HTTP reply: a body, or an error status. */
  datatype Reply<T> = Ok(body: T) | HttpError(status: int)

  /** The body of a successful prediction. */
  datatype Verdict = Verdict(prediction: bool, probability: real)

  /** The payload of a scheduled alert; its timestamp is not modelled. */
  datatype Alert = Alert(transaction: RawRecord, probability: real)

  /** The reply and the alert task scheduled for after it, if any. */
  datatype PredictOutcome = PredictOutcome(reply: Reply<Verdict>, alert: Option<Alert>)

  /** The alert rule. */
  predicate ShouldAlert(isFraud: bool, probability: real)
    // a fraud label always alerts, whatever the probability
    ensures isFraud ==> ShouldAlert(isFraud, probability)
    // otherwise the probability must exceed the threshold strictly
    ensures !isFraud ==> (ShouldAlert(isFraud, probability) <==> probability > FraudThreshold)
  {
    isFraud || probability > FraudThreshold
  }

  /** `predict(transaction)`: the 503 gate sits outside the `try`; every
      exception inside it (a raising transform, an empty probability vector
      whose `max` raises) becomes a 500. */
  function Predict(a: Artifacts, data: RawRecord): (o: PredictOutcome)
    // missing artifacts: 503, before any featurization
    ensures !AllLoaded(a) ==> o == PredictOutcome(HttpError(503), None)
    ensures o.reply.HttpError? ==> o.reply.status in {500, 503} && o.alert.None?
    ensures o.reply.HttpError? && o.reply.status == 503 <==> !AllLoaded(a)
    // a 200 needs a successful featurization and a non-empty probability vector
    ensures o.reply.Ok? <==>
              ProcessFeatures(a, data).Success? &&
              |a.model.value.predictProba(ProcessFeatures(a, data).value)| > 0
    // the verdict is the label's truth value and the largest class probability
    ensures o.reply.Ok? ==>
              var x := ProcessFeatures(a, data).value;
              var proba := a.model.value.predictProba(x);
              o.reply.body.prediction == (a.model.value.predict(x) != 0) &&
              o.reply.body.probability in proba &&
              (forall j :: 0 <= j < |proba| ==> proba[j] <= o.reply.body.probability)
    // an alert carrying the raw record is scheduled iff the alert rule holds
    ensures o.reply.Ok? ==>
              (o.alert.Some? <==> ShouldAlert(o.reply.body.prediction, o.reply.body.probability)) &&
              (o.alert.Some? ==> o.alert.value == Alert(data, o.reply.body.probability))
  {
    if !AllLoaded(a) then PredictOutcome(HttpError(503), None)
    else
      match ProcessFeatures(a, data)
      case Failure(_) => PredictOutcome(HttpError(500), None)
      case Success(x) =>
        var model := a.model.value;
        var proba := model.predictProba(x);
        if |proba| == 0 then PredictOutcome(HttpError(500), None)
        else
          var isFraud := model.predict(x) != 0;
          var probability := Scores.Max(proba);
          var alert := if ShouldAlert(isFraud, probability) then Some(Alert(data, probability)) else None;
          PredictOutcome(Ok(Verdict(isFraud, probability)), alert)
  }

  /** A non-fraud verdict at exactly the threshold schedules nothing, one
      just above it does. */
  lemma AlertBoundary()
    ensures !ShouldAlert(false, FraudThreshold)
    ensures ShouldAlert(false, 0.75)
    ensures ShouldAlert(true, 0.0)
  {
  }

  /** What the background alert task logs. */
  datatype AlertLog = Delivered(status: int) | DeliveryFailed

  /** `trigger_fraud_alert`: `webhook` is the POST, `None` when it raises.
      Any failure is logged and swallowed. */
  function DispatchAlert(alert: Alert, webhook: Alert -> Option<int>): (log: AlertLog)
    ensures log == DeliveryFailed <==> webhook(alert).None?
    ensures log.Delivered? ==> webhook(alert) == Some(log.status)
  {
    match webhook(alert)
    case None => DeliveryFailed
    case Some(status) => Delivered(status)
  }

  /** A whole request: the reply, then the background task, if scheduled. */
  datatype Served = Served(reply: Reply<Verdict>, log: Option<AlertLog>)

  function ServePredict(a: Artifacts, data: RawRecord, webhook: Alert -> Option<int>): (s: Served)
    ensures s.reply == Predict(a, data).reply
    ensures s.log.Some? <==> Predict(a, data).alert.Some?
    ensures s.log == Some(DeliveryFailed) <==> Predict(a, data).alert.Some? && webhook(Predict(a, data).alert.value).None?
  {
    var o := Predict(a, data);
    Served(o.reply, if o.alert.Some? then Some(DispatchAlert(o.alert.value, webhook)) else None)
  }

  /** The webhook's behaviour never reaches the reply: a failing webhook
      leaves it exactly as a working one would. */
  lemma ReplyIgnoresWebhook(a: Artifacts, data: RawRecord, w1: Alert -> Option<int>, w2: Alert -> Option<int>)
    ensures ServePredict(a, data, w1).reply == ServePredict(a, data, w2).reply
  {
  }
}
